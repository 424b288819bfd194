/** The order, invoice and online-order services as they run: one object holds the tables, and each
    method is the body of one serializable transaction. Its contract ties the new tables to the
    transaction's specification in `OrderTables` and says what the caller may rely on: the invariant stays,
    no item goes back, and a refused transaction leaves every table as it was. */
module OrderService {
  import opened Sums
  import opened OrderTables
  import opened OrderSteps
  import OrderStock
  import opened OrderRuns
  import opened OrderPromises
  import opened OrderAnswers
  import opened OrderSplits
  import opened OrderDeskAnswers

  /** A sum over rows, as the loops of the services accumulate it. */
  method SumOf(rows: seq<Item>, f: Item -> int) returns (sum: int)
    ensures sum == Total(rows, f)
  {
    sum := 0;
    for i := 0 to |rows|
      invariant sum == Total(rows[..i], f)
    {
      assert rows[..i + 1] == rows[..i] + [rows[i]];
      TotalAppend(rows[..i], rows[i], f);
      sum := sum + f(rows[i]);
    }
    assert rows[..|rows|] == rows;
  }

  method CalculateSubTotal(rows: seq<Item>, ids: seq<Id>) returns (sum: int)
    requires forall i :: 0 <= i < |ids| ==> ids[i] < |rows|
    ensures sum == SubTotal(rows, ids)
  {
    sum := 0;
    for i := 0 to |ids|
      invariant sum == SubTotal(rows, ids[..i])
    {
      assert ids[..i + 1][..i] == ids[..i];
      sum := sum + Amount(rows[ids[i]]);
    }
    assert ids[..|ids|] == ids;
  }

  /** The first line of a split that is refused decides. */
  lemma {:induction false} FirstRefusal(items: seq<Item>, s: Id, moves: seq<Move>, n: nat)
    requires n <= |moves| && CheckMoves(items, s, moves[..n]).Some?
    ensures CheckMoves(items, s, moves) == CheckMoves(items, s, moves[..n])
  {
    if n == |moves| {
      assert moves[..n] == moves;
    } else {
      var m := |moves| - 1;
      assert moves[..m][..n] == moves[..n];
      FirstRefusal(items, s, moves[..m], n);
    }
  }

  class OrdersDesk {
    /** How many accepted orders a pickup slot takes. */
    const capacity: nat
    var tables: seq<Table>
    var sessions: seq<Session>
    var items: seq<Item>
    var invoices: seq<Invoice>
    var stock: seq<Stock>
    var requests: seq<OnlineRequest>

    constructor (slots: nat)
      ensures Snapshot() == EMPTY && capacity == slots
    {
      capacity := slots;
      tables, sessions, items, invoices, stock, requests := [], [], [], [], [], [];
    }

    function Snapshot(): Db
      reads this
    {
      Db(tables, sessions, items, invoices, stock, requests)
    }

    /** The tables are those of the outcome `o`, from the tables `before`, and `r` is its error, if any. */
    ghost predicate Did(before: Db, o: Outcome, r: Option<Error>)
      reads this
    {
      match o
      case Ok(db) => Snapshot() == db && r == None
      case Fail(error) => Snapshot() == before && r == Some(error)
    }

    /** The invariant holds, no item has gone back, and a refused call changed nothing. */
    ghost predicate Kept(before: Db, r: Option<Error>)
      reads this
    {
      Inv(Snapshot(), capacity) && AllAge(before.items, items) && (r.Some? ==> Snapshot() == before)
    }

    /** The outcome of a call that left these tables and this error. */
    ghost function Now(r: Option<Error>): Outcome
      reads this
    {
      match r
      case None => Ok(Snapshot())
      case Some(error) => Fail(error)
    }

    // ----- inventory-consumption.service -----

    method ReservePendingItems(sel: Item -> bool) returns (r: Option<Error>)
      modifies `items, `stock
      ensures Did(old(Snapshot()), ReservePending(old(Snapshot()), sel), r)
    {
      var rows, before := items, stock;
      if exists i :: 0 <= i < |rows| && sel(rows[i]) && rows[i].status == Pending && rows[i].held != map[] && rows[i].held != Need(rows[i]) {
        return Some(Conflict);
      }
      var after := before;
      for k := 0 to |before|
        invariant items == rows && stock == before && |after| == |before|
        invariant forall j :: 0 <= j < k ==> after[j] == before[j].(reserved := before[j].reserved + Total(rows, NewHold(sel, j)))
        invariant forall j :: 0 <= j < k ==> !(Total(rows, NewHold(sel, j)) > 0 && before[j].stock - before[j].reserved < Total(rows, NewHold(sel, j)))
        invariant forall j :: k <= j < |before| ==> after[j] == before[j]
      {
        var quantity := SumOf(rows, NewHold(sel, k));
        if quantity > 0 && before[k].stock - before[k].reserved < quantity {
          return Some(Insufficient);
        }
        after := after[k := before[k].(reserved := before[k].reserved + quantity)];
      }
      stock := after;
      items := MapItems(rows, Hold(sel));
      return None;
    }

    method ReleaseReservations(sel: Item -> bool) returns (r: Option<Error>)
      modifies `items, `stock
      ensures Did(old(Snapshot()), Release(old(Snapshot()), sel), r)
    {
      var rows, before := items, stock;
      var after := before;
      for k := 0 to |before|
        invariant items == rows && stock == before && |after| == |before|
        invariant forall j :: 0 <= j < k ==> after[j] == before[j].(reserved := before[j].reserved - Total(rows, OldHold(sel, j)))
        invariant forall j :: 0 <= j < k ==> before[j].reserved >= Total(rows, OldHold(sel, j))
        invariant forall j :: k <= j < |before| ==> after[j] == before[j]
      {
        var quantity := SumOf(rows, OldHold(sel, k));
        if before[k].reserved < quantity {
          return Some(Conflict);
        }
        after := after[k := before[k].(reserved := before[k].reserved - quantity)];
      }
      stock := after;
      items := MapItems(rows, LetGo(sel));
      return None;
    }

    method ReleaseOne(i: Id) returns (r: Option<Error>)
      requires i < |items|
      modifies `items, `stock
      ensures Did(old(Snapshot()), ReleaseItem(old(Snapshot()), i), r)
    {
      var it, before := items[i], stock;
      var after := before;
      for k := 0 to |before|
        invariant items == old(items) && stock == before && |after| == |before|
        invariant forall j :: 0 <= j < k ==> after[j] == before[j].(reserved := before[j].reserved - HeldFor(it, j))
        invariant forall j :: 0 <= j < k ==> before[j].reserved >= HeldFor(it, j)
        invariant forall j :: k <= j < |before| ==> after[j] == before[j]
      {
        if before[k].reserved < HeldFor(it, k) {
          return Some(Conflict);
        }
        after := after[k := before[k].(reserved := before[k].reserved - HeldFor(it, k))];
      }
      stock := after;
      items := items[i := it.(held := map[])];
      return None;
    }

    method ConsumeOrderItem(i: Id) returns (r: Option<Error>)
      requires i < |items|
      modifies `items, `stock
      ensures Did(old(Snapshot()), Consume(old(Snapshot()), i), r)
    {
      var it, before := items[i], stock;
      if it.held != map[] && it.held != Need(it) {
        return Some(Conflict);
      }
      var after := before;
      for k := 0 to |before|
        invariant items == old(items) && stock == before && |after| == |before|
        invariant forall j :: 0 <= j < k ==> after[j] == before[j].(stock := before[j].stock - NeedFor(it, j), reserved := before[j].reserved - HeldFor(it, j))
        invariant forall j :: 0 <= j < k && j in it.recipe ==>
                    before[j].reserved >= HeldFor(it, j) && before[j].stock - before[j].reserved >= NeedFor(it, j) - HeldFor(it, j)
        invariant forall j :: k <= j < |before| ==> after[j] == before[j]
      {
        var own, total := HeldFor(it, k), NeedFor(it, k);
        if k in it.recipe && (before[k].reserved < own || before[k].stock - before[k].reserved < total - own) {
          return Some(Insufficient);
        }
        after := after[k := before[k].(stock := before[k].stock - total, reserved := before[k].reserved - own)];
      }
      stock := after;
      items := items[i := it.(held := map[], consumed := it.consumed + 1)];
      return None;
    }

    // ----- orders.service -----

    /** Opens a session, at a table exactly if it exists and nobody sits there; then the session does, and no
        other table is concerned. */
    method CreateOrderSession(table: Option<Id>) returns (r: Option<Error>)
      requires Inv(Snapshot(), capacity)
      modifies this
      ensures Did(old(Snapshot()), OpenSession(old(Snapshot()), table, None), r)
      ensures Kept(old(Snapshot()), r)
      ensures r.None? <==> table.None? || (TableExists(old(Snapshot()), table.value) && FindActive(old(sessions), table.value).None?)
      ensures r.None? && table.Some? ==>
                FindActive(sessions, table.value) == Some(|old(sessions)|) && SameSeats(old(sessions), sessions, {table.value})
      ensures OpenSays(old(Snapshot()), Now(r), table)
    {
      hide Inv, AllAge, SameSeats, FindActive, OpenSays;
      OpenAnswers(Snapshot(), table, capacity);
      StepPromise(Snapshot(), SessionOpened(table), capacity);
      if table.Some? {
        OpenSessionPromise(Snapshot(), table.value, capacity);
      }
      if table.Some? {
        var t := table.value;
        if t >= |tables| || tables[t].deleted { return Some(NotFound); }
        if tables[t].status != Empty { return Some(BadRequest); }
        tables := tables[t := tables[t].(status := Occupied)];
      }
      sessions := sessions + [Session(table, Active, None)];
      return None;
    }

    /** `addOrderItemsInTransaction` on lines already resolved against the menu. */
    method AddOrderItems(s: Id, lines: seq<Line>) returns (r: Option<Error>)
      requires Inv(Snapshot(), capacity)
      modifies `items
      ensures Did(old(Snapshot()), AddItems(old(Snapshot()), s, lines), r)
      ensures Kept(old(Snapshot()), r)
      ensures AddSays(old(Snapshot()), Now(r), s, lines)
    {
      hide Inv, AllAge, AddSays;
      AddAnswers(Snapshot(), s, lines);
      StepPromise(Snapshot(), ItemsAdded(s, lines), capacity);
      if s >= |sessions| { return Some(NotFound); }
      if sessions[s].status != Active { return Some(BadRequest); }
      if sessions[s].request.Some? { return Some(Conflict); }
      var created: seq<Item> := [];
      for n := 0 to |lines|
        invariant items == old(items) && created == NewItems(s, lines)[..n]
        invariant forall k :: 0 <= k < n ==> LineOk(lines[k], |stock|)
      {
        if !LineOk(lines[n], |stock|) { return Some(NotFound); }
        created := created + [NewItem(s, lines[n])];
      }
      items := items + created;
      return None;
    }

    /** Advances an item: stock falls by exactly what it needs if its preparation starts, and by nothing otherwise,
        and no other item changes. */
    method ChangeItemStatus(i: Id, next: ServeStatus, handoffOnly: bool, pickup: Pickup, due: bool) returns (r: Option<Error>)
      requires Inv(Snapshot(), capacity)
      modifies this
      ensures Did(old(Snapshot()), ChangeStatus(old(Snapshot()), i, next, handoffOnly, pickup, due), r)
      ensures Kept(old(Snapshot()), r)
      ensures r.None? ==> i < |old(items)| && OnlyItem(old(items), items, i) && items[i].status == next
      ensures r.None? ==> TakesFor(old(Snapshot()), Snapshot(), i, StartsCooking(old(Snapshot()), i, next))
      ensures StatusSays(old(Snapshot()), Now(r), i, next, handoffOnly, pickup, due)
    {
      hide Inv, AllAge, TakesFor, OnlyItem, StartsCooking, Consume, StatusSays;
      StatusAnswers(Snapshot(), i, next, handoffOnly, pickup, due, capacity);
      StepPromise(Snapshot(), StatusChanged(i, next, handoffOnly, pickup, due), capacity);
      if ChangeStatus(Snapshot(), i, next, handoffOnly, pickup, due).Ok? {
        ChangeStatusPromise(Snapshot(), i, next, handoffOnly, pickup, due);
      }
      if i >= |items| || items[i].session >= |sessions| { return Some(NotFound); }
      var it := items[i];
      var s := sessions[it.session];
      if s.status == SessionCancelled || (s.status == Completed && it.invoice.None? && it.remakeOf.None?) { return Some(BadRequest); }
      if it.status == Cancelled { return Some(BadRequest); }
      if next == Served && s.request.Some? && it.remakeOf.None? && pickup.NoPickup? { return Some(Conflict); }
      if pickup.WithCode? && (it.invoice != Some(pickup.invoice) || !it.paid || pickup.invoice >= |invoices|
                              || invoices[pickup.invoice].status != Paid || !pickup.valid) { return Some(Conflict); }
      if handoffOnly && (s.table.Some? || (it.status != Ready && it.status != Served)) { return Some(Conflict); }
      if next == Ready && s.table.Some? { return Some(BadRequest); }
      if it.status == next { return None; }
      if !ServeTransition(it.status, next) { return Some(BadRequest); }
      if next == Cooking && !due { return Some(Conflict); }
      var before := items;
      items := items[i := it.(status := next)];
      if next == Cooking {
        r := ConsumeOrderItem(i);
        if r.Some? {
          items := before;
        }
        return;
      }
      return None;
    }

    /** Cancels one item: it gives its reservation back and no stock that was consumed for it, and is written off
        exactly if it had been consumed. */
    method CancelOrderItem(i: Id, hasReason: bool) returns (r: Option<Error>)
      requires Inv(Snapshot(), capacity)
      modifies this
      ensures Did(old(Snapshot()), CancelItem(old(Snapshot()), i, hasReason), r)
      ensures Kept(old(Snapshot()), r)
      ensures r.None? ==> i < |old(items)| && OnlyItem(old(items), items, i) && items[i].status == Cancelled && items[i].wasted == items[i].consumed
      ensures r.None? ==> SameOnHand(old(stock), stock)
      ensures r.None? ==> forall k :: 0 <= k < |stock| && k < |old(stock)| ==> stock[k].reserved == old(stock)[k].reserved - HeldFor(old(items)[i], k)
      ensures CancelItemSays(old(Snapshot()), Now(r), i, hasReason)
    {
      hide Inv, AllAge, SameOnHand, OnlyItem, ReleaseItem, CancelItemSays;
      CancelItemAnswers(Snapshot(), i, hasReason, capacity);
      StepPromise(Snapshot(), ItemCancelled(i, hasReason), capacity);
      if CancelItem(Snapshot(), i, hasReason).Ok? {
        CancelItemPromise(Snapshot(), i, hasReason, capacity);
      }
      if i >= |items| || items[i].session >= |sessions| { return Some(NotFound); }
      var it := items[i];
      var s := sessions[it.session];
      if it.remakeOf.None? {
        if s.request.Some? { return Some(Conflict); }
        if it.paid || it.invoice.Some? { return Some(BadRequest); }
        if s.status != Active { return Some(BadRequest); }
      } else if s.status == SessionCancelled || it.status == Served {
        return Some(Conflict);
      }
      if it.status == Cancelled { return Some(BadRequest); }
      var wasPrepared := it.status == Cooking || it.status == Ready || it.status == Served;
      if wasPrepared && !hasReason { return Some(BadRequest); }
      if it.paid != it.remakeOf.Some? || it.invoice.Some? { return Some(Conflict); }
      var before := items;
      items := items[i := it.(status := Cancelled, wasted := it.wasted + if wasPrepared then 1 else 0)];
      r := ReleaseOne(i);
      if r.Some? {
        items := before;
      }
    }

    /** Cancels the open items of the session and the session itself. */
    method CallOffSession(s: Id) returns (r: Option<Error>)
      requires s < |sessions|
      modifies `items, `stock, `sessions
      ensures Did(old(Snapshot()), CallOff(old(Snapshot()), s), r)
    {
      r := ReleaseReservations(LiveIn(s));
      if r.Some? {
        return;
      }
      items := MapItems(items, CancelOpen(s));
      sessions := sessions[s := sessions[s].(status := SessionCancelled)];
    }

    /** Cancels a session with everything in it: nothing of it holds stock, nothing was consumed for it, and nobody
        sits at its table. */
    method CancelOrderSession(s: Id) returns (r: Option<Error>)
      requires Inv(Snapshot(), capacity)
      modifies this
      ensures Did(old(Snapshot()), CancelSession(old(Snapshot()), s), r)
      ensures Kept(old(Snapshot()), r)
      ensures r.None? ==> s < |old(sessions)| == |sessions| && sessions[s].status == SessionCancelled
      ensures r.None? ==> AllCancelled(old(items), items, s) && SameOnHand(old(stock), stock)
      ensures r.None? && old(sessions)[s].table.Some? ==> FindActive(sessions, old(sessions)[s].table.value).None?
      ensures CancelSessionSays(old(Snapshot()), Now(r), s)
    {
      hide Inv, AllAge, AllCancelled, SameOnHand, FindActive, CallOff, CancelSessionSays;
      CancelSessionAnswers(Snapshot(), s, capacity);
      StepPromise(Snapshot(), SessionCalledOff(s), capacity);
      if CancelSession(Snapshot(), s).Ok? {
        CancelSessionPromise(Snapshot(), s, capacity);
      }
      if s >= |sessions| { return Some(NotFound); }
      if sessions[s].status != Active { return Some(BadRequest); }
      if sessions[s].request.Some? { return Some(Conflict); }
      if AnyPaidOrInvoiced(items, s) || AnyProcessed(items, s) { return Some(BadRequest); }
      var table := sessions[s].table;
      r := CallOffSession(s);
      if r.None? && table.Some? && table.value < |tables| {
        tables := tables[table.value := tables[table.value].(status := Empty)];
      }
    }

    /** Moves a session to another table: exactly if both exist, it sits at the first and nobody at the second.
        Afterwards it is the other way round, and no other table is concerned. */
    method TransferDiningTable(s: Id, from: Id, to: Id) returns (r: Option<Error>)
      requires Inv(Snapshot(), capacity)
      modifies this
      ensures Did(old(Snapshot()), TransferTable(old(Snapshot()), s, from, to), r)
      ensures Kept(old(Snapshot()), r)
      ensures r.None? <==> TableExists(old(Snapshot()), from) && TableExists(old(Snapshot()), to)
                           && FindActive(old(sessions), from) == Some(s) && FindActive(old(sessions), to).None?
      ensures r.None? ==> FindActive(sessions, from).None? && FindActive(sessions, to) == Some(s) && SameSeats(old(sessions), sessions, {from, to})
      ensures items == old(items) && stock == old(stock)
      ensures TransferSays(old(Snapshot()), Now(r), s, from, to)
    {
      hide Inv, AllAge, SameSeats, FindActive, TransferSays;
      TransferAnswers(Snapshot(), s, from, to, capacity);
      StepPromise(Snapshot(), TableTransferred(s, from, to), capacity);
      TransferPromise(Snapshot(), s, from, to, capacity);
      if from >= |tables| || tables[from].deleted || to >= |tables| || tables[to].deleted { return Some(NotFound); }
      if tables[to].status != Empty { return Some(BadRequest); }
      if s >= |sessions| || sessions[s].table != Some(from) || sessions[s].status != Active { return Some(Conflict); }
      if FindActive(sessions, to).Some? { return Some(Conflict); }
      tables := tables[to := tables[to].(status := Occupied)];
      sessions := sessions[s := sessions[s].(table := Some(to))];
      if tables[from].status == Occupied {
        tables := tables[from := tables[from].(status := Empty)];
      }
      return None;
    }

    /** Merges tables: afterwards nobody sits at the source tables, and what was ordered there is in the one session,
        at the same worth. */
    method MergeDiningTables(sourceTables: set<Id>, destination: Id, sourceSessions: set<Id>, into: Id) returns (r: Option<Error>)
      requires Inv(Snapshot(), capacity)
      modifies this
      ensures Did(old(Snapshot()), MergeTables(old(Snapshot()), sourceTables, destination, sourceSessions, into), r)
      ensures Kept(old(Snapshot()), r)
      ensures r.None? ==> Joined(old(Snapshot()), Snapshot(), sourceTables, destination, MergeSources(old(Snapshot()), sourceTables, sourceSessions), into)
      ensures MergeSays(old(Snapshot()), Now(r), sourceTables, destination, sourceSessions, into)
    {
      hide Inv, AllAge, MergeSources, AnyPaidOrInvoiced, Joined, MergeSays;
      MergeAnswers(Snapshot(), sourceTables, destination, sourceSessions, into, capacity);
      MergePromised(Snapshot(), sourceTables, destination, sourceSessions, into, capacity);
      if MergeTables(Snapshot(), sourceTables, destination, sourceSessions, into).Ok? {
        MergePromise(Snapshot(), sourceTables, destination, sourceSessions, into, capacity);
      }
      if !MergeRequestOk(sourceTables, destination, sourceSessions, into) { return Some(BadRequest); }
      if into >= |sessions| || sessions[into].table != Some(destination) || sessions[into].status != Active { return Some(Conflict); }
      var merged := MergeSources(Snapshot(), sourceTables, sourceSessions);
      if |merged| != |sourceTables| { return Some(Conflict); }
      if AnyPaidOrInvoiced(items, into) || (exists s :: s in merged && AnyPaidOrInvoiced(items, s)) { return Some(BadRequest); }
      items := MapItems(items, MoveOpen(merged, into));
      var rows, halls := sessions, tables;
      sessions := seq(|rows|, s requires 0 <= s < |rows| => if s in merged then rows[s].(status := Completed) else rows[s]);
      tables := seq(|halls|, t requires 0 <= t < |halls| => if t in sourceTables then halls[t].(status := Empty) else halls[t]);
      return None;
    }

    /** Splits an order: every listed line keeps what was not asked for, and the new session at the free table has, of
        each menu item and price, exactly what was. */
    method SplitDiningTable(s: Id, to: Id, moves: seq<Move>) returns (r: Option<Error>)
      requires Inv(Snapshot(), capacity)
      modifies this
      ensures Did(old(Snapshot()), SplitTable(old(Snapshot()), s, to, moves), r)
      ensures Kept(old(Snapshot()), r)
      ensures SplitSays(old(Snapshot()), Now(r), s, to, moves)
    {
      hide Inv, AllAge, SplitSays;
      SplitAnswers(Snapshot(), s, to, moves, capacity);
      StepPromise(Snapshot(), TableSplit(s, to, moves), capacity);
      if !DistinctItems(moves) { return Some(BadRequest); }
      if to >= |tables| || tables[to].deleted { return Some(NotFound); }
      if tables[to].status != Empty { return Some(BadRequest); }
      if s >= |sessions| || sessions[s].status != Active { return Some(BadRequest); }
      if sessions[s].request.Some? { return Some(Conflict); }
      if FindActive(sessions, to).Some? { return Some(Conflict); }
      var dbItems := items;
      r := CheckLines(dbItems, s, moves);
      if r.Some? {
        return;
      }
      tables := tables[to := tables[to].(status := Occupied)];
      var destination := |sessions|;
      sessions := sessions + [Session(Some(to), Active, None)];
      items := MoveLines(dbItems, s, moves, destination);
    }

    static method CheckLines(dbItems: seq<Item>, s: Id, moves: seq<Move>) returns (r: Option<Error>)
      ensures r == CheckMoves(dbItems, s, moves)
    {
      for n := 0 to |moves|
        invariant CheckMoves(dbItems, s, moves[..n]).None?
      {
        var m := moves[n];
        assert moves[..n + 1][..n] == moves[..n];
        if m.item >= |dbItems| {
          r := Some(NotFound);
        } else {
          var it := dbItems[m.item];
          if it.session != s || it.paid || it.invoice.Some? || it.status == Cancelled {
            r := Some(BadRequest);
          } else if it.quantity != m.expected {
            r := Some(Conflict);
          } else if m.quantity > it.quantity || m.quantity == 0 || (m.quantity < it.quantity && it.status != Pending) {
            r := Some(BadRequest);
          } else {
            r := None;
          }
        }
        if r.Some? {
          FirstRefusal(dbItems, s, moves, n + 1);
          return;
        }
      }
      assert moves[..|moves|] == moves;
      return None;
    }

    /** Moves whole lines and shares out the others, each against the row as it was first read. */
    static method MoveLines(dbItems: seq<Item>, s: Id, moves: seq<Move>, destination: Id) returns (rows: seq<Item>)
      requires CheckMoves(dbItems, s, moves).None? && DistinctItems(moves)
      ensures rows == MoveAll(dbItems, moves, destination)
    {
      rows := dbItems;
      for n := 0 to |moves|
        invariant rows == MoveAll(dbItems, moves[..n], destination)
      {
        var m := moves[n];
        OrderStock.CheckedMoves(dbItems, s, moves);
        assert CheckMove(dbItems, s, m).None?;
        MoveAllFrame(dbItems, moves[..n], destination, m.item);
        assert moves[..n + 1][..n] == moves[..n];
        var it := dbItems[m.item];
        if m.quantity == it.quantity {
          rows := rows[m.item := it.(session := destination)];
        } else {
          rows := rows[m.item := KeptPart(it, m.quantity)];
          rows := rows + [MovedPart(it, m.quantity, destination)];
        }
      }
      assert moves[..|moves|] == moves;
    }

    /** Completes a session at a table: nothing in it is left to pay, and nobody sits at the table. */
    method CompleteOrderSession(s: Id) returns (r: Option<Error>)
      requires Inv(Snapshot(), capacity)
      modifies this
      ensures Did(old(Snapshot()), CompleteSession(old(Snapshot()), s), r)
      ensures Kept(old(Snapshot()), r)
      ensures r.None? ==> s < |old(sessions)| == |sessions| && sessions[s].status == Completed && old(sessions)[s].table.Some?
      ensures r.None? ==> forall i :: 0 <= i < |items| && items[i].session == s ==> items[i].status == Cancelled || items[i].paid
      ensures r.None? && old(sessions)[s].status == Active ==> FindActive(sessions, old(sessions)[s].table.value).None?
      ensures items == old(items) && stock == old(stock)
      ensures CompleteSays(old(Snapshot()), Now(r), s)
    {
      hide Inv, AllAge, FindActive, CompleteSays;
      CompleteAnswers(Snapshot(), s, capacity);
      StepPromise(Snapshot(), SessionCompleted(s), capacity);
      if CompleteSession(Snapshot(), s).Ok? {
        CompletePromise(Snapshot(), s, capacity);
      }
      if s >= |sessions| { return Some(NotFound); }
      if sessions[s].table.None? { return Some(Conflict); }
      if sessions[s].status == Completed { return None; }
      if sessions[s].status != Active || !Finished(items, s) { return Some(Conflict); }
      var t := sessions[s].table.value;
      if t >= |tables| || tables[t].status != Occupied { return Some(Conflict); }
      sessions := sessions[s := sessions[s].(status := Completed)];
      tables := tables[t := tables[t].(status := Empty)];
      return None;
    }

    /** Frees a table with whoever the caller saw there: the session's items are cancelled and hold no stock. */
    method ClearDiningTable(t: Id, expected: Option<Id>) returns (r: Option<Error>)
      requires Inv(Snapshot(), capacity)
      modifies this
      ensures Did(old(Snapshot()), ClearTable(old(Snapshot()), t, expected), r)
      ensures Kept(old(Snapshot()), r)
      ensures r.None? ==> FindActive(old(sessions), t) == expected && FindActive(sessions, t).None? && SameOnHand(old(stock), stock)
      ensures r.None? ==> if expected.Some? then AllCancelled(old(items), items, expected.value) else items == old(items) && sessions == old(sessions)
      ensures ClearSays(old(Snapshot()), Now(r), t, expected)
    {
      hide Inv, AllAge, AllCancelled, SameOnHand, FindActive, CallOff, ClearSays;
      ClearAnswers(Snapshot(), t, expected, capacity);
      StepPromise(Snapshot(), TableCleared(t, expected), capacity);
      if ClearTable(Snapshot(), t, expected).Ok? {
        ClearTablePromise(Snapshot(), t, expected, capacity);
      }
      if t >= |tables| || tables[t].deleted { return Some(NotFound); }
      var active := FindActive(sessions, t);
      if active != expected { return Some(Conflict); }
      if active.Some? {
        if AnyPaidOrInvoiced(items, active.value) || AnyProcessed(items, active.value) { return Some(BadRequest); }
        r := CallOffSession(active.value);
        if r.Some? {
          return;
        }
      }
      tables := tables[t := tables[t].(status := Empty)];
      return None;
    }

    /** Replaces a served item: the replacement is free, needs what the original needed, and is the only one. What
        was ordered is worth as much as before. */
    method RemakeOrderItem(i: Id, routable: bool) returns (r: Option<Error>)
      requires Inv(Snapshot(), capacity)
      modifies this
      ensures Did(old(Snapshot()), RemakeItem(old(Snapshot()), i, routable), r)
      ensures Kept(old(Snapshot()), r)
      ensures r.None? ==> i < |old(items)| && |items| == |old(items)| + 1 && items[|old(items)|].price == 0
                           && Need(items[|old(items)|]) == Need(old(items)[i]) && Total(items, OrderStock.Value()) == Total(old(items), OrderStock.Value())
      ensures r.None? ==> RemakeItem(Snapshot(), i, routable) == Fail(Conflict)
      ensures stock == old(stock) && invoices == old(invoices)
      ensures RemakeSays(old(Snapshot()), Now(r), i, routable)
    {
      hide Inv, AllAge, RemakeSays;
      RemakeAnswers(Snapshot(), i, routable, capacity);
      RemakePromised(Snapshot(), i, routable, capacity);
      if RemakeItem(Snapshot(), i, routable).Ok? {
        RemakePromise(Snapshot(), i, routable);
      }
      if i >= |items| || items[i].session >= |sessions| { return Some(NotFound); }
      var it := items[i];
      var s := sessions[it.session];
      if !it.paid || it.status != Served || it.invoice.None? || it.invoice.value >= |invoices| || invoices[it.invoice.value].status != Paid
         || s.status == SessionCancelled || (s.table.Some? && s.status != Active) { return Some(Conflict); }
      if it.remadeAs.Some? || it.remakeOf.Some? { return Some(Conflict); }
      if !routable { return Some(Conflict); }
      var replacement := |items|;
      items := items[i := it.(remadeAs := Some(replacement), wasted := it.wasted + 1)] + [Replacement(it, i)];
      return None;
    }

    // ----- invoices.service -----

    method CloseSessionIfFullyPaid(s: Id)
      requires s < |sessions|
      modifies `sessions
      ensures Snapshot() == CloseIfPaid(old(Snapshot()), s)
    {
      if sessions[s].table.Some? || sessions[s].status != Active { return; }
      if exists i :: 0 <= i < |items| && ItemIn(items[i], s) && items[i].status != Cancelled && !items[i].paid { return; }
      sessions := sessions[s := sessions[s].(status := Completed)];
    }

    /** Bills exactly the chosen items of a session, or all that may be billed, and reserves what they still need; or
        refuses and changes nothing. */
    method CreateSessionInvoice(s: Id, chosen: Option<seq<Id>>, discount: nat, rate: nat, paid: bool, closing: bool, onlinePickup: bool)
      returns (r: Option<Error>)
      requires Inv(Snapshot(), capacity)
      modifies this
      ensures !onlinePickup ==> Kept(old(Snapshot()), r)
      ensures Did(old(Snapshot()), CreateInvoice(old(Snapshot()), s, chosen, discount, rate, paid, closing, onlinePickup), r)
      ensures InvoiceSays(old(Snapshot()), Now(r), s, chosen, discount, rate, paid, closing, onlinePickup)
    {
      hide Inv, AllAge, ReservePending, CloseIfPaid, InvoiceSays;
      InvoiceAnswers(Snapshot(), s, chosen, discount, rate, paid, closing, onlinePickup, capacity);
      if !onlinePickup {
        InvoicePromised(Snapshot(), s, chosen, discount, rate, paid, closing, capacity);
      }
      if s >= |sessions| { return Some(NotFound); }
      if sessions[s].status != Active { return Some(BadRequest); }
      if !onlinePickup && sessions[s].request.Some? { return Some(Conflict); }
      var ids := ChosenIds(Snapshot(), s, chosen);
      if !Distinct(ids) || !AllIn(items, s, ids) || ids == [] { return Some(BadRequest); }
      if !AllBillable(items, ids) { return Some(BadRequest); }
      var subTotal := CalculateSubTotal(items, ids);
      r := IssueInvoice(ids, Bill(s, subTotal, discount, rate, paid), paid);
      if r.None? && paid && closing {
        CloseSessionIfFullyPaid(s);
      }
    }

    /** Stores the bill, links its items and reserves their stock, or leaves everything as it was. */
    method IssueInvoice(ids: seq<Id>, bill: Invoice, paid: bool) returns (r: Option<Error>)
      requires forall i :: 0 <= i < |ids| ==> ids[i] < |items|
      modifies `items, `invoices, `stock
      ensures var d := old(Snapshot()).(invoices := old(invoices) + [bill], items := LinkAll(old(items), ids, |old(invoices)|, paid));
              match ReservePending(d, OnInvoice(|old(invoices)|))
              case Ok(db) => Snapshot() == db && r == None
              case Fail(error) => Snapshot() == old(Snapshot()) && r == Some(error)
    {
      hide ReservePending;
      var beforeItems, beforeInvoices := items, invoices;
      invoices := invoices + [bill];
      items := LinkAll(items, ids, |beforeInvoices|, paid);
      r := ReservePendingItems(OnInvoice(|beforeInvoices|));
      if r.Some? {
        items, invoices := beforeItems, beforeInvoices;
      }
    }

    /** A payment at the desk: every item of the invoice is paid, each pending one holds all it needs, and a
        session without a table does not stay active when everything in it is paid. */
    method UpdatePayment(v: Id, closing: bool) returns (r: Option<Error>)
      requires Inv(Snapshot(), capacity)
      modifies this
      ensures Did(old(Snapshot()), PayInvoice(old(Snapshot()), v, closing), r)
      ensures Kept(old(Snapshot()), r)
      ensures r.None? ==> v < |old(invoices)| == |invoices| && invoices[v].status == Paid && AllPaid(items, v)
      ensures r.None? ==> AllReserved(items, OnInvoice(v)) && SameOnHand(old(stock), stock)
      ensures r.None? && closing ==> ClosedIfPaid(Snapshot(), old(invoices)[v].session)
      ensures PaySays(old(Snapshot()), Now(r), v, closing)
    {
      hide Inv, AllAge, AllPaid, AllReserved, SameOnHand, ClosedIfPaid, CloseIfPaid, ReservePending, PaySays;
      PayAnswers(Snapshot(), v, closing, capacity);
      StepPromise(Snapshot(), InvoicePaid(v, closing), capacity);
      if PayInvoice(Snapshot(), v, closing).Ok? {
        PayInvoicePromise(Snapshot(), v, closing);
      }
      if v >= |invoices| || invoices[v].session >= |sessions| { return Some(NotFound); }
      if invoices[v].status != Unpaid { return Some(BadRequest); }
      if sessions[invoices[v].session].request.Some? { return Some(Conflict); }
      var beforeItems, beforeInvoices := items, invoices;
      invoices := invoices[v := invoices[v].(status := Paid)];
      items := MapItems(items, PayLine(v));
      r := ReservePendingItems(OnInvoice(v));
      if r.Some? {
        items, invoices := beforeItems, beforeInvoices;
        return;
      }
      if closing {
        CloseSessionIfFullyPaid(beforeInvoices[v].session);
      }
    }

    /** A confirmed online payment: refused exactly if there is no such unpaid invoice, never for want of stock;
        every item of the invoice is paid. */
    method CompleteOnlinePayment(v: Id, closing: bool) returns (r: Option<Error>)
      requires Inv(Snapshot(), capacity)
      modifies this
      ensures Did(old(Snapshot()), PayOnline(old(Snapshot()), v, closing), r)
      ensures Kept(old(Snapshot()), r)
      ensures r.None? <==> v < |old(invoices)| && old(invoices)[v].status == Unpaid
      ensures r.None? ==> |invoices| == |old(invoices)| && invoices[v].status == Paid && AllPaid(items, v)
      ensures r.None? && closing ==> ClosedIfPaid(Snapshot(), old(invoices)[v].session)
      ensures stock == old(stock)
      ensures PayOnlineSays(old(Snapshot()), Now(r), v, closing)
    {
      hide Inv, AllAge, AllPaid, ClosedIfPaid, CloseIfPaid, PayOnlineSays;
      PayOnlineAnswers(Snapshot(), v, closing, capacity);
      StepPromise(Snapshot(), InvoicePaidOnline(v, closing), capacity);
      PayOnlinePromise(Snapshot(), v, closing, capacity);
      if v >= |invoices| || invoices[v].session >= |sessions| { return Some(NotFound); }
      if invoices[v].status != Unpaid { return Some(BadRequest); }
      invoices := invoices[v := invoices[v].(status := Paid)];
      items := MapItems(items, PayLine(v));
      if closing {
        CloseSessionIfFullyPaid(invoices[v].session);
      }
      return None;
    }

    /** Voids an invoice, exactly if it is there and unpaid: its items can be billed again, and no stock moves but
        their reservations. */
    method VoidUnpaidInvoice(v: Id) returns (r: Option<Error>)
      requires Inv(Snapshot(), capacity)
      modifies this
      ensures Did(old(Snapshot()), VoidInvoice(old(Snapshot()), v), r)
      ensures Kept(old(Snapshot()), r)
      ensures r.None? <==> v < |old(invoices)| && old(invoices)[v].status == Unpaid
      ensures r.None? ==> |invoices| == |old(invoices)| && invoices[v].status == Voided && Freed(old(items), items, v) && SameOnHand(old(stock), stock)
      ensures VoidSays(old(Snapshot()), Now(r), v)
    {
      hide Inv, AllAge, SameOnHand, Release, Freed, VoidSays;
      VoidAnswers(Snapshot(), v, capacity);
      StepPromise(Snapshot(), InvoiceVoided(v), capacity);
      VoidPromise(Snapshot(), v, capacity);
      if v >= |invoices| || invoices[v].session >= |sessions| { return Some(NotFound); }
      if invoices[v].status != Unpaid { return Some(BadRequest); }
      if sessions[invoices[v].session].request.None? {
        r := ReleaseReservations(PendingOn(v));
        if r.Some? {
          return;
        }
      }
      invoices := invoices[v := invoices[v].(status := Voided)];
      items := MapItems(items, Unlink(v));
      return None;
    }

    // ----- online-orders.service -----

    /** Stores a request with its quotes, the sum they come to and its times. */
    method CreatePublicRequest(quotes: seq<Quote>, pickupAt: Option<int>, expiresAt: int) returns (r: Option<Error>)
      requires Inv(Snapshot(), capacity)
      modifies `requests
      ensures Did(old(Snapshot()), SubmitRequest(old(Snapshot()), quotes, pickupAt, expiresAt), r)
      ensures Kept(old(Snapshot()), r)
      ensures SubmitSays(old(Snapshot()), Now(r), quotes, pickupAt, expiresAt)
    {
      hide Inv, AllAge, SubmitSays;
      SubmitAnswers(Snapshot(), quotes, pickupAt, expiresAt);
      StepPromise(Snapshot(), RequestSubmitted(quotes, pickupAt, expiresAt), capacity);
      if quotes == [] || exists i :: 0 <= i < |quotes| && quotes[i].quantity == 0 { return Some(BadRequest); }
      var quotedSubtotal := 0;
      for n := 0 to |quotes|
        invariant requests == old(requests) && quotedSubtotal == QuotedTotal(quotes[..n])
      {
        assert quotes[..n + 1][..n] == quotes[..n];
        quotedSubtotal := quotedSubtotal + Times(quotes[n].price, quotes[n].quantity);
      }
      assert quotes[..|quotes|] == quotes;
      requests := requests + [OnlineRequest(quotes, quotedSubtotal, pickupAt, expiresAt, RequestPending, None)];
      return None;
    }

    /** Turns a request down: no slot is booked more or less, and the request is never accepted. */
    method Reject(q: Id, now: int) returns (r: Option<Error>)
      requires Inv(Snapshot(), capacity)
      modifies `requests
      ensures Did(old(Snapshot()), RejectRequest(old(Snapshot()), q, now), r)
      ensures Kept(old(Snapshot()), r)
      ensures forall p :: Total(requests, BookedAt(p)) == Total(old(requests), BookedAt(p))
      ensures r.None? ==> forall lines, later :: AcceptRequest(Snapshot(), q, lines, later, capacity) == Fail(Conflict)
      ensures RejectSays(old(Snapshot()), Now(r), q, now)
    {
      hide Inv, AllAge, RejectSays;
      RejectAnswers(Snapshot(), q, now);
      StepPromise(Snapshot(), RequestRejected(q, now), capacity);
      if RejectRequest(Snapshot(), q, now).Ok? {
        RejectPromise(Snapshot(), q, now, capacity);
      }
      if q >= |requests| || requests[q].status != RequestPending || requests[q].expiresAt <= now { return Some(Conflict); }
      requests := requests[q := requests[q].(status := Rejected)];
      return None;
    }

    /** What the shop advertises for each slot; in every reachable state no slot is overbooked, so the
        remaining places are never clipped at zero. */
    method GetPickupSlots(slots: seq<int>) returns (remaining: seq<nat>)
      requires Inv(Snapshot(), capacity)
      ensures |remaining| == |slots|
      ensures forall i :: 0 <= i < |slots| ==> remaining[i] + Total(requests, BookedAt(slots[i])) == capacity
    {
      remaining := [];
      for n := 0 to |slots|
        invariant |remaining| == n
        invariant forall i :: 0 <= i < n ==> remaining[i] + Total(requests, BookedAt(slots[i])) == capacity
      {
        var booked := 0;
        for q := 0 to |requests|
          invariant booked == Total(requests[..q], BookedAt(slots[n])) >= 0
        {
          assert requests[..q + 1][..q] == requests[..q];
          if requests[q].status == Accepted && requests[q].pickupAt == Some(slots[n]) {
            booked := booked + 1;
          }
        }
        assert requests[..|requests|] == requests;
        remaining := remaining + [if capacity - booked > 0 then capacity - booked else 0];
      }
    }

    /** Accepts a request into a session of its own: its items add up to the quoted subtotal and hold all they
        need, and its slot had a place. */
    method Accept(q: Id, lines: seq<Line>, now: int) returns (r: Option<Error>)
      requires Inv(Snapshot(), capacity)
      modifies this
      ensures Did(old(Snapshot()), AcceptRequest(old(Snapshot()), q, lines, now, capacity), r)
      ensures Kept(old(Snapshot()), r)
      ensures r.None? ==> q < |old(requests)| == |requests| && requests[q].session == Some(|old(sessions)|)
                           && Total(items, LineIn(|old(sessions)|)) == old(requests)[q].quotedSubtotal
      ensures r.None? ==> AllReserved(items, InSession(|old(sessions)|)) && SameOnHand(old(stock), stock)
      ensures r.None? && old(requests)[q].pickupAt.Some? ==>
                var p := old(requests)[q].pickupAt.value; Total(requests, BookedAt(p)) == Total(old(requests), BookedAt(p)) + 1 <= capacity
      ensures AcceptSays(old(Snapshot()), Now(r), q, lines, now, capacity)
    {
      hide Inv, AllAge, AllReserved, SameOnHand, ReservePending, AcceptSays;
      AcceptAnswers(Snapshot(), q, lines, now, capacity);
      AcceptPromised(Snapshot(), q, lines, now, capacity);
      if AcceptRequest(Snapshot(), q, lines, now, capacity).Ok? {
        AcceptPromise(Snapshot(), q, lines, now, capacity);
      }
      if q >= |requests| { return Some(NotFound); }
      var request := requests[q];
      if request.status != RequestPending || request.expiresAt <= now { return Some(Conflict); }
      if request.pickupAt.Some? {
        if request.pickupAt.value <= now { return Some(Conflict); }
        if Total(requests, BookedAt(request.pickupAt.value)) >= capacity { return Some(Conflict); }
      }
      if !QuotesHold(request.quotes, lines) || (exists i :: 0 <= i < |lines| && !LineOk(lines[i], |stock|)) { return Some(Conflict); }
      var beforeItems, beforeSessions := items, sessions;
      var s := |sessions|;
      sessions := sessions + [Session(None, Active, Some(q))];
      items := items + NewItems(s, lines);
      r := ReservePendingItems(InSession(s));
      if r.Some? {
        items, sessions := beforeItems, beforeSessions;
        return;
      }
      requests := requests[q := request.(status := Accepted, session := Some(s))];
    }

    /** The collection is refused with a conflict both when it is too early and when the total changed. */
    method Collect(q: Id) returns (r: Option<Error>)
      requires Inv(Snapshot(), capacity)
      modifies this
      ensures match CollectRequest(old(Snapshot()), q)
              case Collected(o) => Did(old(Snapshot()), o, r)
              case _ => Snapshot() == old(Snapshot()) && r == Some(Conflict)
      ensures Kept(old(Snapshot()), r)
      ensures CollectSays(old(Snapshot()), Now(r), q)
    {
      hide Inv, AllAge, CollectSays;
      CollectAnswers(Snapshot(), q, capacity);
      CollectPromised(Snapshot(), q, capacity);
      if q >= |requests| || requests[q].status != Accepted || requests[q].session.None? { return Some(Conflict); }
      var s := requests[q].session.value;
      if s >= |sessions| || sessions[s].table.Some? || sessions[s].status != Active { return Some(Conflict); }
      if (forall i :: 0 <= i < |items| ==> !ItemIn(items[i], s))
         || (exists i :: 0 <= i < |items| && ItemIn(items[i], s) && !Collectable(items[i])) { return Some(Conflict); }
      var subtotal := SumOf(items, LineIn(s));
      if subtotal != requests[q].quotedSubtotal { return Some(Conflict); }
      var v := |invoices|;
      r := CreateSessionInvoice(s, None, 0, 0, true, true, true);
      if r.None? {
        items := MapItems(items, ServeOn(v));
      }
    }

    /** Cancels an accepted order: what was started is wasted, and the rest lets go of what it holds. */
    method CancelAcceptedRequest(q: Id) returns (r: Option<Error>)
      requires Inv(Snapshot(), capacity)
      modifies this
      ensures Did(old(Snapshot()), CancelRequest(old(Snapshot()), q), r)
      ensures Kept(old(Snapshot()), r)
      ensures CancelSays(old(Snapshot()), Now(r), q)
    {
      hide Inv, AllAge, CallOff, CancelSays;
      CancelAnswers(Snapshot(), q, capacity);
      CancelRequestPromised(Snapshot(), q, capacity);
      if q >= |requests| || requests[q].status != Accepted || requests[q].session.None? { return Some(Conflict); }
      var s := requests[q].session.value;
      if s >= |sessions| || sessions[s].table.Some? || sessions[s].status != Active || AnyPaidOrInvoiced(items, s)
         || (exists i :: 0 <= i < |items| && ItemIn(items[i], s) && items[i].status == Served) { return Some(Conflict); }
      var rows := items;
      for i := 0 to |rows|
        invariant |items| == |rows| && stock == old(stock) && tables == old(tables) && sessions == old(sessions) && invoices == old(invoices) && requests == old(requests)
        invariant forall k :: 0 <= k < i ==> items[k] == WasteStarted(s)(rows[k])
        invariant forall k :: i <= k < |rows| ==> items[k] == rows[k]
      {
        if items[i].session == s && (items[i].status == Cooking || items[i].status == Ready) {
          items := items[i := items[i].(wasted := items[i].wasted + 1)];
        }
      }
      assert items == MapItems(rows, WasteStarted(s));
      r := CallOffSession(s);
      if r.Some? {
        items := rows;
        return;
      }
      requests := requests[q := requests[q].(status := RequestCancelled)];
    }
  }
}

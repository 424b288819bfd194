/** When each transaction of the floor, the kitchen and the desk is granted, and what it then writes: in terms of
    the rows, for any state of the invariant. */
module OrderAnswers {
  import opened Sums
  import opened OrderTables
  import opened OrderStock
  import opened OrderItems
  import opened OrderFloor
  import opened OrderSteps
  import opened OrderBilling
  import opened OrderPromises

  // ----- what things cost and need -----

  /** A line costs its price, and needs its recipe, times its quantity. */
  lemma UnitsMultiply(it: Item, k: Id)
    ensures Amount(it) == it.price * it.quantity
    ensures NeedFor(it, k) == if k in it.recipe then it.recipe[k] * it.quantity else 0
    ensures Need(it) == map j | j in it.recipe :: it.recipe[j] * it.quantity
  {
  }

  // ----- stock -----

  /** What a selected pending item without a reservation still lacks of an ingredient. */
  function Lacking(sel: Item -> bool, k: Id): Item -> int {
    (it: Item) => if sel(it) && it.status == Pending && it.held == map[] && k in it.recipe then it.recipe[k] * it.quantity else 0
  }

  /** Of every ingredient there is as much as is reserved and lacking together. */
  ghost predicate EnoughFor(db: Db, sel: Item -> bool) {
    forall k :: 0 <= k < |db.stock| ==> db.stock[k].reserved + Total(db.items, Lacking(sel, k)) <= db.stock[k].stock
  }

  function WithHold(it: Item, sel: Item -> bool): Item {
    if sel(it) && it.status == Pending && it.held == map[] then it.(held := map j | j in it.recipe :: it.recipe[j] * it.quantity) else it
  }

  /** Reserving is granted exactly if there is enough for all selected items, which then hold what they need. */
  ghost predicate ReserveSays(before: Db, o: Outcome, sel: Item -> bool) {
    && (o.Ok? <==> EnoughFor(before, sel))
    && (o.Fail? ==> o == Fail(Insufficient))
    && (o.Ok? ==>
         && |o.db.items| == |before.items| && |o.db.stock| == |before.stock|
         && o.db == before.(items := o.db.items, stock := o.db.stock)
         && (forall i :: 0 <= i < |before.items| ==> o.db.items[i] == WithHold(before.items[i], sel))
         && forall k :: 0 <= k < |before.stock| ==>
              o.db.stock[k] == before.stock[k].(reserved := before.stock[k].reserved + Total(before.items, Lacking(sel, k))))
  }

  lemma ReserveAnswers(db: Db, sel: Item -> bool)
    requires StockOk(db.stock, db.items)
    ensures ReserveSays(db, ReservePending(db, sel), sel)
  {
    ReserveKeeps(db, sel);
    forall k | 0 <= k < |db.stock|
      ensures Total(db.items, NewHold(sel, k)) == Total(db.items, Lacking(sel, k)) >= 0 && db.stock[k].reserved <= db.stock[k].stock
    {
      assert StockRowOk(k, db.stock[k], db.items);
      TotalsAgree(db.items, db.items, NewHold(sel, k), Lacking(sel, k));
      TotalNonNegative(db.items, NewHold(sel, k));
    }
    hide StockOk, Total;
  }

  function HeldOfIt(it: Item, k: Id): nat { if k in it.held then it.held[k] else 0 }

  /** Of every ingredient of the item there is enough that is free or its own. */
  ghost predicate EnoughToCook(db: Db, i: Id)
    requires i < |db.items|
  {
    forall k :: 0 <= k < |db.stock| && k in db.items[i].recipe ==>
      db.items[i].recipe[k] * db.items[i].quantity <= db.stock[k].stock - db.stock[k].reserved + HeldOfIt(db.items[i], k)
  }

  ghost predicate Consumed(before: Db, after: Db, i: Id)
    requires i < |before.items|
  {
    var it := before.items[i];
    && |after.stock| == |before.stock|
    && after == before.(items := before.items[i := it.(held := map[], consumed := it.consumed + 1)], stock := after.stock)
    && forall k :: 0 <= k < |before.stock| ==>
         after.stock[k] == before.stock[k].(
           stock := before.stock[k].stock - (if k in it.recipe then it.recipe[k] * it.quantity else 0),
           reserved := before.stock[k].reserved - HeldOfIt(it, k))
  }

  lemma ConsumeAnswers(db: Db, i: Id)
    requires StockOk(db.stock, db.items) && i < |db.items|
    ensures Consume(db, i).Ok? <==> EnoughToCook(db, i)
    ensures Consume(db, i).Fail? ==> Consume(db, i) == Fail(Insufficient)
    ensures Consume(db, i).Ok? ==> Consumed(db, Consume(db, i).db, i)
  {
    ConsumeKeeps(db, i);
    forall k | 0 <= k < |db.stock|
      ensures HeldFor(db.items[i], k) == HeldOfIt(db.items[i], k) <= db.stock[k].reserved
    {
      assert StockRowOk(k, db.stock[k], db.items);
      TotalAtLeast(db.items, HeldOf(k), i);
    }
    hide StockOk;
  }

  // ----- sessions and tables -----

  ghost predicate OpenSays(before: Db, o: Outcome, table: Option<Id>) {
    && (o.Ok? <==> table.Some? ==> TableExists(before, table.value) && FindActive(before.sessions, table.value).None?)
    && (o.Fail? ==> o == Fail(if TableExists(before, table.value) then BadRequest else NotFound))
    && (o.Ok? ==>
         o.db == before.(sessions := before.sessions + [Session(table, Active, None)],
                         tables := if table.Some? then before.tables[table.value := Table(Occupied, false)] else before.tables))
  }

  lemma OpenAnswers(db: Db, table: Option<Id>, capacity: nat)
    requires Inv(db, capacity)
    ensures OpenSays(db, OpenSession(db, table, None), table)
  {
    hide Inv, FindActive;
    if table.Some? && table.value < |db.tables| {
      TableTells(db, table.value, capacity);
    }
  }

  ghost predicate TransferSays(before: Db, o: Outcome, s: Id, from: Id, to: Id) {
    && (o.Ok? <==> TableExists(before, from) && TableExists(before, to) && FindActive(before.sessions, from) == Some(s)
                   && FindActive(before.sessions, to).None?)
    && (!TableExists(before, from) || !TableExists(before, to) ==> o == Fail(NotFound))
    && (o.Ok? ==>
         && s < |before.sessions|
         && o.db == before.(sessions := before.sessions[s := before.sessions[s].(table := Some(to))],
                            tables := before.tables[to := Table(Occupied, false)][from := Table(Empty, false)]))
  }

  lemma TransferAnswers(db: Db, s: Id, from: Id, to: Id, capacity: nat)
    requires Inv(db, capacity)
    ensures TransferSays(db, TransferTable(db, s, from, to), s, from, to)
  {
    hide Inv, SameSeats, FindActive;
    TransferPromise(db, s, from, to, capacity);
    SeatsAre(db, capacity);
    if TableExists(db, from) {
      TableTells(db, from, capacity);
    }
  }

  /** No item of the session is paid, on an invoice or started. */
  predicate Untouched(items: seq<Item>, s: Id) {
    forall i :: 0 <= i < |items| && items[i].session == s ==>
      !items[i].paid && items[i].invoice.None? && (items[i].status == Pending || items[i].status == Cancelled)
  }

  lemma UntouchedIs(items: seq<Item>, s: Id)
    ensures Untouched(items, s) <==> !AnyPaidOrInvoiced(items, s) && !AnyProcessed(items, s)
  {
    assert forall i :: 0 <= i < |items| ==> (ItemIn(items[i], s) <==> items[i].session == s);
  }

  /** The live items of the session are cancelled and hold nothing; no other item has changed. */
  predicate ItemsCalledOff(before: seq<Item>, after: seq<Item>, s: Id) {
    |after| == |before| && forall i :: 0 <= i < |before| ==>
      after[i] == if before[i].session == s && before[i].status != Cancelled then before[i].(status := Cancelled, held := map[]) else before[i]
  }

  lemma CallOffCancels(db: Db, s: Id, capacity: nat)
    requires Inv(db, capacity) && s < |db.sessions| && !AnyPaidOrInvoiced(db.items, s)
    ensures CallOff(db, s).Ok? && ItemsCalledOff(db.items, CallOff(db, s).db.items, s)
    ensures CallOff(db, s).db == db.(items := CallOff(db, s).db.items, stock := CallOff(db, s).db.stock,
                                     sessions := db.sessions[s := db.sessions[s].(status := SessionCancelled)])
  {
    CallOffStock(db, s);
    CallOffLength(db, s);
    CallOffFrame(db, s);
    var d := CallOff(db, s).db;
    forall i | 0 <= i < |db.items|
      ensures d.items[i] == if db.items[i].session == s && db.items[i].status != Cancelled then db.items[i].(status := Cancelled, held := map[]) else db.items[i]
    {
      CallOffEffect(db, s, i);
      assert ItemOk(db.items[i], db.sessions, db.invoices);
      assert db.items[i].session == s ==> ItemIn(db.items[i], s);
      hide CallOff, Inv;
    }
    hide CallOff, Inv;
  }

  lemma CallOffFrame(db: Db, s: Id)
    requires s < |db.sessions| && CallOff(db, s).Ok?
    ensures CallOff(db, s).db == db.(items := CallOff(db, s).db.items, stock := CallOff(db, s).db.stock,
                                     sessions := db.sessions[s := db.sessions[s].(status := SessionCancelled)])
  {
  }

  ghost predicate CancelSessionSays(before: Db, o: Outcome, s: Id) {
    && (o.Ok? <==> s < |before.sessions| && before.sessions[s].status == Active && before.sessions[s].request.None? && Untouched(before.items, s))
    && (o == Fail(NotFound) <==> s >= |before.sessions|)
    && (o.Ok? ==>
         && ItemsCalledOff(before.items, o.db.items, s)
         && o.db.sessions == before.sessions[s := before.sessions[s].(status := SessionCancelled)]
         && o.db == before.(items := o.db.items, stock := o.db.stock, sessions := o.db.sessions, tables := o.db.tables)
         && var t := before.sessions[s].table;
            && (t.Some? ==> t.value < |before.tables|)
            && o.db.tables == if t.Some? then before.tables[t.value := before.tables[t.value].(status := Empty)] else before.tables)
  }

  lemma CancelSessionAnswers(db: Db, s: Id, capacity: nat)
    requires Inv(db, capacity)
    ensures CancelSessionSays(db, CancelSession(db, s), s)
  {
    hide Inv, CallOff, AnyPaidOrInvoiced, AnyProcessed, Untouched, ItemsCalledOff;
    SessionTableExists(db, s, capacity);
    UntouchedIs(db.items, s);
    if s < |db.sessions| && !AnyPaidOrInvoiced(db.items, s) {
      CallOffCancels(db, s, capacity);
    }
  }

  ghost predicate ClearSays(before: Db, o: Outcome, t: Id, expected: Option<Id>) {
    && (o.Ok? <==> TableExists(before, t) && FindActive(before.sessions, t) == expected && (expected.Some? ==> Untouched(before.items, expected.value)))
    && (o.Fail? ==> o == Fail(if !TableExists(before, t) then NotFound else if FindActive(before.sessions, t) != expected then Conflict else BadRequest))
    && (o.Ok? && expected.Some? ==>
         && expected.value < |before.sessions|
         && ItemsCalledOff(before.items, o.db.items, expected.value)
         && o.db == before.(items := o.db.items, stock := o.db.stock, tables := before.tables[t := Table(Empty, false)],
                            sessions := before.sessions[expected.value := before.sessions[expected.value].(status := SessionCancelled)]))
    && (o.Ok? && expected.None? ==> o.db == before.(tables := before.tables[t := Table(Empty, false)]))
  }

  lemma ClearAnswers(db: Db, t: Id, expected: Option<Id>, capacity: nat)
    requires Inv(db, capacity)
    ensures ClearSays(db, ClearTable(db, t, expected), t, expected)
  {
    hide Inv, CallOff, AnyPaidOrInvoiced, AnyProcessed, Untouched, ItemsCalledOff;
    if expected.Some? && FindActive(db.sessions, t) == expected {
      UntouchedIs(db.items, expected.value);
      if !AnyPaidOrInvoiced(db.items, expected.value) {
        CallOffCancels(db, expected.value, capacity);
      }
    }
  }

  /** Nothing that was ordered in the session is unpaid or not served yet, unless it was cancelled. */
  predicate AllServedAndPaid(items: seq<Item>, s: Id) {
    forall i :: 0 <= i < |items| && items[i].session == s && items[i].status != Cancelled ==> items[i].paid && items[i].status == Served
  }

  ghost predicate CompleteSays(before: Db, o: Outcome, s: Id) {
    && (o.Ok? <==> s < |before.sessions| && before.sessions[s].table.Some?
                   && (before.sessions[s].status == Completed || (before.sessions[s].status == Active && AllServedAndPaid(before.items, s))))
    && (o.Fail? ==> o == Fail(if s < |before.sessions| then Conflict else NotFound))
    && (o.Ok? && before.sessions[s].status == Completed ==> o.db == before)
    && (o.Ok? && before.sessions[s].status == Active ==>
         && before.sessions[s].table.value < |before.tables|
         && o.db == before.(sessions := before.sessions[s := before.sessions[s].(status := Completed)],
                            tables := before.tables[before.sessions[s].table.value := Table(Empty, false)]))
  }

  lemma CompleteAnswers(db: Db, s: Id, capacity: nat)
    requires Inv(db, capacity)
    ensures CompleteSays(db, CompleteSession(db, s), s)
  {
    SeatsAre(db, capacity);
    assert forall i :: 0 <= i < |db.items| ==> (ItemIn(db.items[i], s) <==> db.items[i].session == s);
    SessionTableExists(db, s, capacity);
    if s < |db.sessions| && db.sessions[s].table.Some? && db.sessions[s].status == Active {
      assert ActiveAt(db.sessions, s, db.sessions[s].table.value);
      TableTells(db, db.sessions[s].table.value, capacity);
    }
    hide Inv;
  }

  lemma SessionTableExists(db: Db, s: Id, capacity: nat)
    requires Inv(db, capacity)
    ensures s < |db.sessions| && db.sessions[s].table.Some? ==> db.sessions[s].table.value < |db.tables|
  {
  }

  /** The session is one of those named and sits at one of the source tables. */
  predicate IsSource(before: Db, s: Id, sourceTables: set<Id>, sourceSessions: set<Id>) {
    s in sourceSessions && s < |before.sessions| && before.sessions[s].status == Active
    && before.sessions[s].table.Some? && before.sessions[s].table.value in sourceTables
  }

  predicate NothingBilled(items: seq<Item>, s: Id) {
    forall i :: 0 <= i < |items| && items[i].session == s ==> !items[i].paid && items[i].invoice.None?
  }

  /** A merge needs a session at the destination and, of those named, one at every source table, with nothing
      paid or invoiced in any of them. */
  ghost predicate MergeSays(before: Db, o: Outcome, sourceTables: set<Id>, destination: Id, sourceSessions: set<Id>, into: Id) {
    && (o.Ok? <==>
          && into !in sourceSessions && destination !in sourceTables && sourceTables != {}
          && FindActive(before.sessions, destination) == Some(into)
          && (forall t: Id :: t in sourceTables ==> FindActive(before.sessions, t).Some? && FindActive(before.sessions, t).value in sourceSessions)
          && NothingBilled(before.items, into)
          && (forall t: Id :: t in sourceTables && FindActive(before.sessions, t).Some? ==> NothingBilled(before.items, FindActive(before.sessions, t).value)))
    && (o.Ok? ==>
         && |o.db.items| == |before.items| && |o.db.sessions| == |before.sessions| && |o.db.tables| == |before.tables|
         && o.db == before.(items := o.db.items, sessions := o.db.sessions, tables := o.db.tables)
         && (forall i :: 0 <= i < |before.items| ==>
              o.db.items[i] == if IsSource(before, before.items[i].session, sourceTables, sourceSessions) then before.items[i].(session := into) else before.items[i])
         && (forall s :: 0 <= s < |before.sessions| ==>
              o.db.sessions[s] == if IsSource(before, s, sourceTables, sourceSessions) then before.sessions[s].(status := Completed) else before.sessions[s])
         && (forall t :: 0 <= t < |before.tables| ==>
              o.db.tables[t] == if t in sourceTables then before.tables[t].(status := Empty) else before.tables[t]))
  }

  /** Sources and source tables are as many as each other exactly if every source table has its session among them. */
  lemma CountingIsEnough(db: Db, sourceTables: set<Id>, sourceSessions: set<Id>, capacity: nat)
    requires Inv(db, capacity)
    ensures |MergeSources(db, sourceTables, sourceSessions)| == |sourceTables| <==>
              forall t: Id :: t in sourceTables ==> FindActive(db.sessions, t).Some? && FindActive(db.sessions, t).value in sourceSessions
  {
    var merged := MergeSources(db, sourceTables, sourceSessions);
    SeatsAre(db, capacity);
    var place := PlaceIn(db.sessions);
    forall r, s | r in merged && s in merged && place(r) == place(s)
      ensures r == s
    {
      assert ActiveAt(db.sessions, r, place(r)) && ActiveAt(db.sessions, s, place(r));
    }
    hide Inv, FindActive;
    if |merged| == |sourceTables| {
      InjectionIsOnto(merged, sourceTables, place);
      forall t: Id | t in sourceTables
        ensures FindActive(db.sessions, t).Some? && FindActive(db.sessions, t).value in sourceSessions
      {
        var s :| s in merged && place(s) == t;
        assert ActiveAt(db.sessions, s, t);
      }
    }
    if forall t: Id :: t in sourceTables ==> FindActive(db.sessions, t).Some? && FindActive(db.sessions, t).value in sourceSessions {
      forall t: Id | t in sourceTables
        ensures exists s :: s in merged && place(s) == t
      {
        var s := FindActive(db.sessions, t).value;
        assert ActiveAt(db.sessions, s, t);
        assert s in merged && place(s) == t;
      }
      OntoAndInjective(merged, sourceTables, place);
    }
  }

  lemma {:induction false} OntoAndInjective(sources: set<Id>, targets: set<Id>, place: Id -> Id)
    requires forall s :: s in sources ==> place(s) in targets
    requires forall r, s :: r in sources && s in sources && place(r) == place(s) ==> r == s
    requires forall t :: t in targets ==> exists s :: s in sources && place(s) == t
    ensures |sources| == |targets|
    decreases |sources|
  {
    if sources == {} {
      assert targets == {};
    } else {
      var s :| s in sources;
      forall t | t in targets - {place(s)}
        ensures exists r :: r in sources - {s} && place(r) == t
      {
        var r :| r in sources && place(r) == t;
        assert r in sources - {s};
      }
      OntoAndInjective(sources - {s}, targets - {place(s)}, place);
    }
  }

  lemma NothingBilledIs(items: seq<Item>, s: Id)
    ensures NothingBilled(items, s) <==> !AnyPaidOrInvoiced(items, s)
  {
    assert forall i :: 0 <= i < |items| ==> (ItemIn(items[i], s) <==> items[i].session == s);
  }

  lemma MergeAnswers(db: Db, sourceTables: set<Id>, destination: Id, sourceSessions: set<Id>, into: Id, capacity: nat)
    requires Inv(db, capacity)
    ensures MergeSays(db, MergeTables(db, sourceTables, destination, sourceSessions, into), sourceTables, destination, sourceSessions, into)
  {
    hide Inv, FindActive, AnyPaidOrInvoiced, NothingBilled;
    var merged := MergeSources(db, sourceTables, sourceSessions);
    CountingIsEnough(db, sourceTables, sourceSessions, capacity);
    SeatsAre(db, capacity);
    NothingBilledIs(db.items, into);
    forall s ensures NothingBilled(db.items, s) <==> !AnyPaidOrInvoiced(db.items, s) {
      NothingBilledIs(db.items, s);
    }
    forall s: Id | s in merged
      ensures db.sessions[s].table.value in sourceTables && FindActive(db.sessions, db.sessions[s].table.value) == Some(s)
    {
      assert ActiveAt(db.sessions, s, db.sessions[s].table.value);
    }
    if |merged| == |sourceTables| {
      forall t: Id | t in sourceTables
        ensures FindActive(db.sessions, t).value in merged
      {
        assert ActiveAt(db.sessions, FindActive(db.sessions, t).value, t);
      }
    }
    if MergeTables(db, sourceTables, destination, sourceSessions, into).Ok? {
      MergedItems(db, sourceTables, destination, sourceSessions, into);
    }
  }

  // ----- items -----

  /** A line just ordered: unpaid, pending, with the price and recipe it was resolved to. */
  predicate JustOrdered(it: Item, s: Id, l: Line) {
    it == Item(s, l.menuItem, l.quantity, l.price, false, None, Pending, l.recipe, map[], if l.routed then Some(l.quantity) else None, None, None, 0, 0)
  }

  predicate CanBeOrdered(l: Line, ingredients: nat) {
    l.quantity > 0 && forall k :: k in l.recipe ==> k < ingredients && l.recipe[k] > 0
  }

  ghost predicate AddSays(before: Db, o: Outcome, s: Id, lines: seq<Line>) {
    && (o.Ok? <==> s < |before.sessions| && before.sessions[s].status == Active && before.sessions[s].request.None?
                   && forall i :: 0 <= i < |lines| ==> CanBeOrdered(lines[i], |before.stock|))
    && (s >= |before.sessions| ==> o == Fail(NotFound))
    && (o.Ok? ==>
         && |o.db.items| == |before.items| + |lines| && o.db.items[..|before.items|] == before.items && o.db == before.(items := o.db.items)
         && forall i :: 0 <= i < |lines| ==> JustOrdered(o.db.items[|before.items| + i], s, lines[i]))
  }

  lemma AddAnswers(db: Db, s: Id, lines: seq<Line>)
    ensures AddSays(db, AddItems(db, s, lines), s, lines)
  {
    assert forall i :: 0 <= i < |lines| ==> (LineOk(lines[i], |db.stock|) <==> CanBeOrdered(lines[i], |db.stock|));
  }

  predicate NextStep(from: ServeStatus, to: ServeStatus) {
    match to
    case Pending => false
    case Cooking => from == Pending
    case Ready => from == Cooking
    case Served => from == Cooking || from == Ready
    case Cancelled => false
  }

  /** A live item may take a step, or stay: cooking once its ticket is due; ready only away from tables; an online
      order's own item is served only with the code of its paid invoice; a handoff only of what is ready, away from
      tables. */
  predicate StatusGranted(before: Db, i: Id, next: ServeStatus, handoffOnly: bool, pickup: Pickup, due: bool) {
    && i < |before.items|
    && var it := before.items[i];
       && it.session < |before.sessions|
       && var s := before.sessions[it.session];
          && it.status != Cancelled
          && (it.status == next || (NextStep(it.status, next) && (next == Cooking ==> due)))
          && (next == Ready ==> s.table.None?)
          && (next == Served && s.request.Some? && it.remakeOf.None? ==> pickup.WithCode?)
          && (pickup.WithCode? ==> pickup.valid && it.invoice == Some(pickup.invoice) && it.paid && pickup.invoice < |before.invoices|
                                   && before.invoices[pickup.invoice].status == Paid)
          && (handoffOnly ==> s.table.None? && (it.status == Ready || it.status == Served))
  }

  /** What the invariant says of an item and its session. */
  lemma ItemStands(db: Db, i: Id, capacity: nat)
    requires Inv(db, capacity) && i < |db.items|
    ensures var it := db.items[i];
            && it.session < |db.sessions|
            && (db.sessions[it.session].status == SessionCancelled ==> it.status == Cancelled)
            && (db.sessions[it.session].status == Completed && it.status != Cancelled ==> it.invoice.Some? || it.remakeOf.Some?)
            && (it.remakeOf.Some? ==> it.paid && it.invoice.None?)
            && (it.status == Cancelled || it.status == Cooking || it.status == Ready || it.status == Served ==> it.held == map[])
  {
    assert ItemOk(db.items[i], db.sessions, db.invoices);
  }

  lemma StartingToCook(db: Db, i: Id, capacity: nat)
    requires Inv(db, capacity) && i < |db.items|
    ensures var d := db.(items := db.items[i := db.items[i].(status := Cooking)]);
            && (Consume(d, i).Ok? <==> EnoughToCook(db, i))
            && (Consume(d, i).Fail? ==> Consume(d, i) == Fail(Insufficient))
            && (Consume(d, i).Ok? ==> Consumed(d, Consume(d, i).db, i))
  {
    var d := db.(items := db.items[i := db.items[i].(status := Cooking)]);
    StatusStock(db, i);
    ConsumeAnswers(d, i);
    CookingNeeds(db, i);
    hide Inv, Consume, Consumed, EnoughToCook;
  }

  ghost predicate StatusSays(before: Db, o: Outcome, i: Id, next: ServeStatus, handoffOnly: bool, pickup: Pickup, due: bool) {
    && (i >= |before.items| ==> o == Fail(NotFound))
    && (i < |before.items| ==>
         var it := before.items[i];
         var starts := next == Cooking && it.status == Pending;
         && (o.Ok? <==> StatusGranted(before, i, next, handoffOnly, pickup, due) && (starts ==> EnoughToCook(before, i)))
         && (o == Fail(Insufficient) <==> StatusGranted(before, i, next, handoffOnly, pickup, due) && starts && !EnoughToCook(before, i))
         && (o.Ok? ==> if starts then Consumed(before.(items := before.items[i := it.(status := Cooking)]), o.db, i)
                       else o.db == before.(items := before.items[i := it.(status := next)])))
  }

  lemma StatusAnswers(db: Db, i: Id, next: ServeStatus, handoffOnly: bool, pickup: Pickup, due: bool, capacity: nat)
    requires Inv(db, capacity)
    ensures StatusSays(db, ChangeStatus(db, i, next, handoffOnly, pickup, due), i, next, handoffOnly, pickup, due)
  {
    hide Inv, Consume, Consumed, EnoughToCook;
    if i < |db.items| {
      ItemStands(db, i, capacity);
      StartingToCook(db, i, capacity);
      assert db.items[i := db.items[i]] == db.items;
    }
  }

  lemma StatusStock(db: Db, i: Id)
    requires StockOk(db.stock, db.items) && i < |db.items|
    ensures StockOk(db.stock, db.items[i := db.items[i].(status := Cooking)])
  {
    SameStockKeeps(db.stock, db.items, db.items[i := db.items[i].(status := Cooking)]);
  }

  lemma CookingNeeds(db: Db, i: Id)
    requires i < |db.items|
    ensures EnoughToCook(db.(items := db.items[i := db.items[i].(status := Cooking)]), i) == EnoughToCook(db, i)
  {
  }

  /** An ordered item may be cancelled while its session is active, not online, and it is unpaid and uninvoiced; a
      remake until it is served. Prepared items need a reason. */
  predicate CancelGranted(before: Db, i: Id, hasReason: bool) {
    && i < |before.items|
    && var it := before.items[i];
       && it.session < |before.sessions|
       && it.status != Cancelled && (it.status != Pending ==> hasReason)
       && if it.remakeOf.Some? then it.status != Served
          else before.sessions[it.session].status == Active && before.sessions[it.session].request.None? && !it.paid && it.invoice.None?
  }

  ghost predicate CancelItemSays(before: Db, o: Outcome, i: Id, hasReason: bool) {
    && (o.Ok? <==> CancelGranted(before, i, hasReason))
    && (o == Fail(NotFound) <==> i >= |before.items|)
    && (o.Ok? ==>
         var it := before.items[i];
         && |o.db.stock| == |before.stock|
         && o.db == before.(stock := o.db.stock,
                            items := before.items[i := it.(status := Cancelled, held := map[], wasted := it.wasted + if it.status == Pending then 0 else 1)])
         && forall k :: 0 <= k < |before.stock| ==> o.db.stock[k] == before.stock[k].(reserved := before.stock[k].reserved - HeldOfIt(it, k)))
  }

  lemma CancelItemAnswers(db: Db, i: Id, hasReason: bool, capacity: nat)
    requires Inv(db, capacity)
    ensures CancelItemSays(db, CancelItem(db, i, hasReason), i, hasReason)
  {
    hide Inv, ReleaseItem;
    if i < |db.items| {
      ItemStands(db, i, capacity);
      LettingGo(db, i, capacity);
    }
  }

  /** The reservation of an item that is being cancelled is let go of, which is never refused. */
  lemma LettingGo(db: Db, i: Id, capacity: nat)
    requires Inv(db, capacity) && i < |db.items|
    ensures var it := db.items[i];
            var d := db.(items := db.items[i := it.(status := Cancelled, wasted := it.wasted + if Prepared(it.status) then 1 else 0)]);
            && ReleaseItem(d, i).Ok?
            && var e := ReleaseItem(d, i).db;
               && |e.stock| == |db.stock| && e == d.(stock := e.stock, items := d.items[i := d.items[i].(held := map[])])
               && forall k :: 0 <= k < |db.stock| ==> e.stock[k] == db.stock[k].(reserved := db.stock[k].reserved - HeldOfIt(it, k))
  {
    var it := db.items[i];
    var d := db.(items := db.items[i := it.(status := Cancelled, wasted := it.wasted + if Prepared(it.status) then 1 else 0)]);
    SameStockKeeps(db.stock, db.items, d.items);
    ReleaseItemKeeps(d, i);
    hide Inv, StockOk;
  }

  /** A served item on a paid invoice is remade once, unless its guests have left; what replaces it is a free, pending
      copy. */
  ghost predicate RemakeSays(before: Db, o: Outcome, i: Id, routable: bool) {
    && (o == Fail(NotFound) <==> i >= |before.items|)
    && (i < |before.items| ==>
         var it := before.items[i];
         && it.session < |before.sessions|
         && (o.Ok? <==>
               && it.status == Served && it.paid && it.remadeAs.None? && routable
               && it.invoice.Some? && it.invoice.value < |before.invoices| && before.invoices[it.invoice.value].status == Paid
               && (before.sessions[it.session].table.Some? ==> before.sessions[it.session].status == Active))
         && (o.Ok? ==>
              o.db == before.(items := before.items[i := it.(remadeAs := Some(|before.items|), wasted := it.wasted + 1)]
                                + [Item(it.session, it.menuItem, it.quantity, 0, true, None, Pending, it.recipe, map[], Some(it.quantity), Some(i), None, 0, 0)])))
  }

  lemma RemakeAnswers(db: Db, i: Id, routable: bool, capacity: nat)
    requires Inv(db, capacity)
    ensures RemakeSays(db, RemakeItem(db, i, routable), i, routable)
  {
    if i < |db.items| {
      assert ItemOk(db.items[i], db.sessions, db.invoices);
    }
    hide Inv;
  }

  /** A table goes once nobody sits there, and stock is taken out by hand only as far as it is free. */
  lemma UpkeepAnswers(db: Db, t: Id, k: Id, delta: int, capacity: nat)
    requires Inv(db, capacity)
    ensures AddTable(db) == Ok(db.(tables := db.tables + [Table(Empty, false)]))
    ensures DeleteTable(db, t) ==
              if !TableExists(db, t) then Fail(NotFound)
              else if FindActive(db.sessions, t).None? then Ok(db.(tables := db.tables[t := Table(Empty, true)])) else Fail(BadRequest)
    ensures AdjustStock(db, k, delta) ==
              if k >= |db.stock| then Fail(NotFound)
              else
                var s := db.stock[k];
                if 0 - delta <= s.stock - s.reserved then Ok(db.(stock := db.stock[k := Stock(s.stock + delta, s.reserved, s.received + delta)]))
                else Fail(Insufficient)
  {
    if TableExists(db, t) {
      TableTells(db, t, capacity);
    }
    hide Inv, FindActive;
  }
}

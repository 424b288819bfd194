/** Stock against the order items: what is on hand is what was received less what the items consumed,
    and what is reserved is what the reservation rows of the items say. */
module OrderStock {
  import opened Sums
  import opened OrderTables

  ghost predicate StockRowOk(k: Id, st: Stock, items: seq<Item>) {
    && st.stock == st.received - Total(items, UsedOf(k)) && st.reserved == Total(items, HeldOf(k))
    && 0 <= st.reserved <= st.stock
  }

  /** A reservation is always for exactly what the item needs. */
  ghost predicate RecipeOk(it: Item, ingredients: nat) {
    && (forall k :: k in it.recipe ==> k < ingredients && it.recipe[k] > 0)
    && it.quantity > 0 && (it.held == map[] || it.held == Need(it))
  }

  ghost predicate RecipesOk(items: seq<Item>, ingredients: nat) {
    forall i :: 0 <= i < |items| ==> RecipeOk(items[i], ingredients)
  }

  ghost predicate StockRowsOk(stock: seq<Stock>, items: seq<Item>) {
    forall k :: 0 <= k < |stock| ==> StockRowOk(k, stock[k], items)
  }

  ghost predicate StockOk(stock: seq<Stock>, items: seq<Item>) {
    RecipesOk(items, |stock|) && StockRowsOk(stock, items)
  }

  /** What stock accounting reads of an item. */
  predicate SameStock(it: Item, other: Item) {
    it.recipe == other.recipe && it.quantity == other.quantity && it.held == other.held && it.consumed == other.consumed
  }

  lemma SameStockKeeps(stock: seq<Stock>, before: seq<Item>, after: seq<Item>)
    requires StockOk(stock, before) && |after| == |before| && forall i :: 0 <= i < |before| ==> SameStock(before[i], after[i])
    ensures StockOk(stock, after)
  {
    forall k | 0 <= k < |stock| ensures StockRowOk(k, stock[k], after) {
      TotalsAgree(before, after, UsedOf(k), UsedOf(k));
      TotalsAgree(before, after, HeldOf(k), HeldOf(k));
    }
    forall i | 0 <= i < |after| ensures RecipeOk(after[i], |stock|) {
      assert RecipeOk(before[i], |stock|);
    }
  }

  lemma NewItemsKeep(stock: seq<Stock>, items: seq<Item>, more: seq<Item>)
    requires StockOk(stock, items) && RecipesOk(more, |stock|)
    requires forall i :: 0 <= i < |more| ==> more[i].held == map[] && more[i].consumed == 0
    ensures StockOk(stock, items + more)
  {
    forall k | 0 <= k < |stock| ensures StockRowOk(k, stock[k], items + more) {
      TotalConcat(items, more, UsedOf(k));
      TotalConcat(items, more, HeldOf(k));
      TotalZero(more, UsedOf(k));
      TotalZero(more, HeldOf(k));
    }
  }

  /** Reserving keeps the books, and an existing reservation always matches: the conflict branch is dead. */
  lemma ReserveKeeps(db: Db, sel: Item -> bool)
    requires StockOk(db.stock, db.items)
    ensures ReservePending(db, sel) != Fail(Conflict)
    ensures ReservePending(db, sel).Ok? ==> StockOk(ReservePending(db, sel).db.stock, ReservePending(db, sel).db.items)
  {
    assert forall i :: 0 <= i < |db.items| ==> RecipeOk(db.items[i], |db.stock|);
    var r := ReservePending(db, sel);
    if r.Ok? {
      forall i | 0 <= i < |r.db.items| ensures RecipeOk(r.db.items[i], |r.db.stock|) {
        assert RecipeOk(db.items[i], |db.stock|);
      }
      forall k | 0 <= k < |r.db.stock| ensures StockRowOk(k, r.db.stock[k], r.db.items) {
        assert StockRowOk(k, db.stock[k], db.items);
        ReservedTotal(db.items, sel, k);
      }
    }
  }

  lemma ReservedTotal(items: seq<Item>, sel: Item -> bool, k: Id)
    ensures Total(items, NewHold(sel, k)) >= 0
    ensures Total(MapItems(items, Hold(sel)), HeldOf(k)) == Total(items, HeldOf(k)) + Total(items, NewHold(sel, k))
    ensures Total(MapItems(items, Hold(sel)), UsedOf(k)) == Total(items, UsedOf(k))
  {
    TotalNonNegative(items, NewHold(sel, k));
    TotalsAdd(items, MapItems(items, Hold(sel)), HeldOf(k), NewHold(sel, k), HeldOf(k));
    TotalsAgree(items, MapItems(items, Hold(sel)), UsedOf(k), UsedOf(k));
  }

  lemma ReleasedTotal(items: seq<Item>, sel: Item -> bool, k: Id)
    ensures 0 <= Total(items, OldHold(sel, k)) <= Total(items, HeldOf(k))
    ensures Total(MapItems(items, LetGo(sel)), HeldOf(k)) == Total(items, HeldOf(k)) - Total(items, OldHold(sel, k))
    ensures Total(MapItems(items, LetGo(sel)), UsedOf(k)) == Total(items, UsedOf(k))
  {
    TotalNonNegative(items, OldHold(sel, k));
    TotalAtMost(items, OldHold(sel, k), HeldOf(k));
    TotalsAgree(items, MapItems(items, LetGo(sel)), UsedOf(k), UsedOf(k));
    var kept := (it: Item) => if sel(it) then 0 else HeldFor(it, k);
    TotalsAgree(items, MapItems(items, LetGo(sel)), kept, HeldOf(k));
    TotalsAdd(items, items, kept, OldHold(sel, k), HeldOf(k));
  }

  /** Releasing keeps the books and is never refused. */
  lemma ReleaseKeeps(db: Db, sel: Item -> bool)
    requires StockOk(db.stock, db.items)
    ensures Release(db, sel).Ok? && StockOk(Release(db, sel).db.stock, Release(db, sel).db.items)
  {
    forall k | 0 <= k < |db.stock| ensures db.stock[k].reserved >= Total(db.items, OldHold(sel, k)) {
      assert StockRowOk(k, db.stock[k], db.items);
      ReleasedTotal(db.items, sel, k);
    }
    var d := Release(db, sel).db;
    forall i | 0 <= i < |d.items| ensures RecipeOk(d.items[i], |d.stock|) {
      assert RecipeOk(db.items[i], |db.stock|);
    }
    forall k | 0 <= k < |d.stock| ensures StockRowOk(k, d.stock[k], d.items) {
      assert StockRowOk(k, db.stock[k], db.items);
      ReleasedTotal(db.items, sel, k);
    }
  }

  lemma LetGoOneTotal(items: seq<Item>, i: Id, k: Id)
    requires i < |items|
    ensures HeldFor(items[i], k) <= Total(items, HeldOf(k))
    ensures Total(items[i := items[i].(held := map[])], HeldOf(k)) == Total(items, HeldOf(k)) - HeldFor(items[i], k)
    ensures Total(items[i := items[i].(held := map[])], UsedOf(k)) == Total(items, UsedOf(k))
  {
    TotalAtLeast(items, HeldOf(k), i);
    TotalUpdate(items, i, items[i].(held := map[]), HeldOf(k));
    TotalUpdate(items, i, items[i].(held := map[]), UsedOf(k));
  }

  lemma ReleaseItemKeeps(db: Db, i: Id)
    requires StockOk(db.stock, db.items) && i < |db.items|
    ensures ReleaseItem(db, i).Ok? && StockOk(ReleaseItem(db, i).db.stock, ReleaseItem(db, i).db.items)
  {
    assert RecipeOk(db.items[i], |db.stock|);
    forall k | 0 <= k < |db.stock| ensures db.stock[k].reserved >= HeldFor(db.items[i], k) {
      assert StockRowOk(k, db.stock[k], db.items);
      LetGoOneTotal(db.items, i, k);
    }
    var d := ReleaseItem(db, i).db;
    forall k | 0 <= k < |d.stock| ensures StockRowOk(k, d.stock[k], d.items) {
      assert StockRowOk(k, db.stock[k], db.items);
      LetGoOneTotal(db.items, i, k);
    }
  }

  /** Taking stock for an item keeps the books; its reservation always matches. */
  lemma ConsumeKeeps(db: Db, i: Id)
    requires StockOk(db.stock, db.items) && i < |db.items|
    ensures Consume(db, i) != Fail(Conflict)
    ensures Consume(db, i).Ok? ==> StockOk(Consume(db, i).db.stock, Consume(db, i).db.items)
  {
    var it := db.items[i];
    assert RecipeOk(it, |db.stock|);
    var c := Consume(db, i);
    if c.Ok? {
      var after := it.(held := map[], consumed := it.consumed + 1);
      forall k | 0 <= k < |c.db.stock| ensures StockRowOk(k, c.db.stock[k], c.db.items) {
        assert StockRowOk(k, db.stock[k], db.items);
        assert UsedFor(after, k) == UsedFor(it, k) + NeedFor(it, k);
        TotalAtLeast(db.items, HeldOf(k), i);
        TotalUpdate(db.items, i, after, HeldOf(k));
        TotalUpdate(db.items, i, after, UsedOf(k));
      }
      forall j | 0 <= j < |c.db.items| ensures RecipeOk(c.db.items[j], |c.db.stock|) {
        assert RecipeOk(db.items[j], |db.stock|);
      }
    }
  }

  lemma AdjustKeeps(db: Db, k: Id, delta: int)
    requires StockOk(db.stock, db.items) && AdjustStock(db, k, delta).Ok?
    ensures StockOk(AdjustStock(db, k, delta).db.stock, db.items)
  {
    var d := AdjustStock(db, k, delta).db;
    forall j | 0 <= j < |d.stock| ensures StockRowOk(j, d.stock[j], d.items) {
      assert StockRowOk(j, db.stock[j], db.items);
    }
  }

  lemma {:induction false} TakenNothing(n: nat)
    ensures Taken(n, 0) == 0
  {
    if n > 0 {
      TakenNothing(n - 1);
    }
  }

  lemma NewIngredientKeeps(stock: seq<Stock>, items: seq<Item>)
    requires StockOk(stock, items)
    ensures StockOk(stock + [Stock(0, 0, 0)], items)
  {
    var k := |stock|;
    forall i | 0 <= i < |items| ensures RecipeOk(items[i], k + 1) && UsedFor(items[i], k) == 0 && HeldFor(items[i], k) == 0 {
      assert RecipeOk(items[i], k);
      TakenNothing(items[i].consumed);
    }
    TotalZero(items, UsedOf(k));
    TotalZero(items, HeldOf(k));
  }

  // ----- splitting -----

  /** A weight that a line shares out between its parts. */
  ghost predicate Additive(f: Item -> int) {
    && (forall it: Item, q: nat, to: Id :: 0 < q < it.quantity ==> f(KeptPart(it, q)) + f(MovedPart(it, q, to)) == f(it))
    && (forall it: Item, to: Id :: f(it.(session := to)) == f(it))
  }

  lemma MoveOneConserves(items: seq<Item>, m: Move, to: Id, f: Item -> int)
    requires Additive(f) && m.quantity > 0
    ensures Total(MoveOne(items, m, to), f) == Total(items, f)
  {
    if m.item < |items| && m.quantity <= items[m.item].quantity {
      var it := items[m.item];
      if m.quantity == it.quantity {
        TotalUpdate(items, m.item, it.(session := to), f);
      } else {
        TotalUpdate(items, m.item, KeptPart(it, m.quantity), f);
        TotalAppend(items[m.item := KeptPart(it, m.quantity)], MovedPart(it, m.quantity, to), f);
      }
    }
  }

  /** Splitting any list of lines conserves every such weight. */
  lemma {:induction false} SplitConserves(items: seq<Item>, moves: seq<Move>, to: Id, f: Item -> int)
    requires Additive(f) && forall i :: 0 <= i < |moves| ==> moves[i].quantity > 0
    ensures Total(MoveAll(items, moves, to), f) == Total(items, f)
  {
    if moves != [] {
      SplitConserves(items, moves[..|moves| - 1], to, f);
      MoveOneConserves(MoveAll(items, moves[..|moves| - 1], to), moves[|moves| - 1], to, f);
    }
  }

  /** The quantity ordered of a menu item at a price, and the value of all lines. */
  function QuantityOf(menuItem: nat, price: nat): Item -> int {
    (it: Item) => if it.menuItem == menuItem && it.price == price then it.quantity else 0
  }

  function Value(): Item -> int { (it: Item) => Amount(it) }

  lemma PartsAdd(it: Item, q: nat, to: Id, k: Id)
    requires 0 < q < it.quantity
    ensures NeedFor(KeptPart(it, q), k) + NeedFor(MovedPart(it, q, to), k) == NeedFor(it, k)
    ensures Amount(KeptPart(it, q)) + Amount(MovedPart(it, q, to)) == Amount(it)
  {
  }

  /** A split conserves, per menu item and price, the quantity; the value; and, per ingredient, the total need. */
  lemma SplitTableConserves(db: Db, s: Id, to: Id, moves: seq<Move>, menuItem: nat, price: nat, k: Id)
    requires SplitTable(db, s, to, moves).Ok?
    ensures var d := SplitTable(db, s, to, moves).db;
            && Total(d.items, QuantityOf(menuItem, price)) == Total(db.items, QuantityOf(menuItem, price))
            && Total(d.items, Value()) == Total(db.items, Value())
            && Total(d.items, NeedOf(k)) == Total(db.items, NeedOf(k))
  {
    CheckedMoves(db.items, s, moves);
    forall it: Item, q: nat, t: Id | 0 < q < it.quantity
      ensures NeedFor(KeptPart(it, q), k) + NeedFor(MovedPart(it, q, t), k) == NeedFor(it, k)
      ensures Amount(KeptPart(it, q)) + Amount(MovedPart(it, q, t)) == Amount(it)
    {
      PartsAdd(it, q, t, k);
    }
    SplitConserves(db.items, moves, |db.sessions|, QuantityOf(menuItem, price));
    SplitConserves(db.items, moves, |db.sessions|, Value());
    SplitConserves(db.items, moves, |db.sessions|, NeedOf(k));
  }

  lemma {:induction false} CheckedMoves(items: seq<Item>, s: Id, moves: seq<Move>)
    requires CheckMoves(items, s, moves).None?
    ensures forall i :: 0 <= i < |moves| ==> CheckMove(items, s, moves[i]).None?
  {
    if moves != [] {
      CheckedMoves(items, s, moves[..|moves| - 1]);
      assert forall i :: 0 <= i < |moves| - 1 ==> moves[i] == moves[..|moves| - 1][i];
    }
  }
}

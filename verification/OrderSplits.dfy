/** Splitting a table: which lines may be moved, how much of each goes to which session, and what comes of the
    rows. */
module OrderSplits {
  import opened Sums
  import opened OrderTables
  import opened OrderStock
  import opened OrderItems
  import opened OrderSteps
  import opened OrderPromises

  /** A live, unbilled line of the session, still of the quantity the caller saw, moves as a whole or, while it is
      pending, in part. */
  predicate LineMoves(items: seq<Item>, s: Id, m: Move) {
    && m.item < |items|
    && var it := items[m.item];
       && it.session == s && !it.paid && it.invoice.None? && it.status != Cancelled && it.quantity == m.expected
       && 1 <= m.quantity <= it.quantity && (m.quantity < it.quantity ==> it.status == Pending)
  }

  predicate AllMove(items: seq<Item>, s: Id, moves: seq<Move>) {
    && (forall j :: 0 <= j < |moves| ==> LineMoves(items, s, moves[j]))
    && (forall i, j :: 0 <= i < j < |moves| ==> moves[i].item != moves[j].item)
  }

  /** A line that moves is in the new session as it was; one that is shared out stays with the rest, and so does its
      ticket. */
  predicate LineMoved(it: Item, after: Item, quantity: nat, to: Id) {
    if quantity == it.quantity then after == it.(session := to)
    else
      var rest := it.quantity - quantity;
      rest > 0 && after == it.(quantity := rest, ticket := if it.ticket.Some? then Some(rest) else None)
  }

  /** The other share: the asked quantity of the same thing at the same price, pending in the new session, with a
      ticket if the line has one. */
  predicate IsShare(it: Item, share: Item, quantity: nat, to: Id) {
    && quantity < it.quantity
    && share == Item(to, it.menuItem, quantity, it.price, false, None, Pending, it.recipe, map[],
                     if it.ticket.Some? then Some(quantity) else None, None, None, 0, 0)
  }

  predicate ShareOfSome(items: seq<Item>, moves: seq<Move>, share: Item, to: Id) {
    exists j :: 0 <= j < |moves| && moves[j].item < |items| && IsShare(items[moves[j].item], share, moves[j].quantity, to)
  }

  predicate Listed(moves: seq<Move>, i: Id) { exists j :: 0 <= j < |moves| && moves[j].item == i }

  function InPart(items: seq<Item>): Move -> int {
    (m: Move) => if m.item < |items| && m.quantity < items[m.item].quantity then 1 else 0
  }

  predicate RowsSplit(items: seq<Item>, after: seq<Item>, moves: seq<Move>, to: Id) {
    && |after| == |items| + Total(moves, InPart(items)) >= |items|
    && (forall j :: 0 <= j < |moves| ==> moves[j].item < |items| && LineMoved(items[moves[j].item], after[moves[j].item], moves[j].quantity, to))
    && (forall i :: 0 <= i < |items| && !Listed(moves, i) ==> after[i] == items[i])
    && (forall k :: |items| <= k < |after| ==> ShareOfSome(items, moves, after[k], to))
  }

  lemma MoveOneSplits(items: seq<Item>, s: Id, m: Move, to: Id)
    requires LineMoves(items, s, m)
    ensures var after := MoveOne(items, m, to); var it := items[m.item];
            && |after| == |items| + (if m.quantity < it.quantity then 1 else 0)
            && LineMoved(it, after[m.item], m.quantity, to)
            && (forall i :: 0 <= i < |items| && i != m.item ==> after[i] == items[i])
            && (m.quantity < it.quantity ==> IsShare(it, after[|items|], m.quantity, to))
  {
  }

  /** A share of an earlier move is still one; the new row is a share of the last. */
  lemma SharesAfterOne(items: seq<Item>, init: seq<Move>, mid: seq<Item>, m: Move, to: Id, after: seq<Item>)
    requires |items| <= |mid| <= |after| <= |mid| + 1 && m.item < |items|
    requires forall k :: |items| <= k < |mid| ==> after[k] == mid[k] && ShareOfSome(items, init, mid[k], to)
    requires |mid| < |after| ==> IsShare(items[m.item], after[|mid|], m.quantity, to)
    ensures forall k :: |items| <= k < |after| ==> ShareOfSome(items, init + [m], after[k], to)
  {
    hide IsShare;
    var moves := init + [m];
    forall k | |items| <= k < |after|
      ensures ShareOfSome(items, moves, after[k], to)
    {
      if k < |mid| {
        var j :| 0 <= j < |init| && init[j].item < |items| && IsShare(items[init[j].item], mid[k], init[j].quantity, to);
        assert moves[j] == init[j];
      } else {
        assert moves[|init|] == m;
      }
    }
  }

  lemma RowsAfterOne(items: seq<Item>, s: Id, init: seq<Move>, mid: seq<Item>, m: Move, to: Id)
    requires RowsSplit(items, mid, init, to) && AllMove(items, s, init + [m]) && m.item < |items| && mid[m.item] == items[m.item]
    ensures RowsSplit(items, MoveOne(mid, m, to), init + [m], to)
  {
    hide MoveOne, LineMoved, IsShare, ShareOfSome, Total;
    var moves, after := init + [m], MoveOne(mid, m, to);
    assert moves[|init|] == m && LineMoves(items, s, m) && forall j :: 0 <= j < |init| ==> moves[j] == init[j];
    MoveOneSplits(mid, s, m, to);
    TotalAppend(init, m, InPart(items));
    forall j | 0 <= j < |moves|
      ensures LineMoved(items[moves[j].item], after[moves[j].item], moves[j].quantity, to)
    {
      assert j < |init| ==> moves[j].item != m.item;
    }
    forall i | 0 <= i < |items| && !Listed(moves, i)
      ensures after[i] == items[i]
    {
      assert m.item != i && !Listed(init, i);
    }
    SharesAfterOne(items, init, mid, m, to, after);
  }

  lemma {:induction false} MoveAllSplits(items: seq<Item>, s: Id, moves: seq<Move>, to: Id)
    requires AllMove(items, s, moves)
    ensures RowsSplit(items, MoveAll(items, moves, to), moves, to)
  {
    if moves != [] {
      var n := |moves| - 1;
      MoveAllSplits(items, s, moves[..n], to);
      MoveAllFrame(items, moves[..n], to, moves[n].item);
      assert moves == moves[..n] + [moves[n]] && LineMoves(items, s, moves[n]);
      hide RowsSplit;
      RowsAfterOne(items, s, moves[..n], MoveAll(items, moves[..n], to), moves[n], to);
    }
  }

  /** How many units of a menu item at a price are in a session, and how many the moves ask for. */
  function UnitsIn(s: Id, menuItem: nat, price: nat): Item -> int {
    (it: Item) => if it.session == s && it.menuItem == menuItem && it.price == price then it.quantity else 0
  }

  function UnitsAsked(items: seq<Item>, menuItem: nat, price: nat): Move -> int {
    (m: Move) => if m.item < |items| && items[m.item].menuItem == menuItem && items[m.item].price == price then m.quantity else 0
  }

  lemma OneMoveAdds(items: seq<Item>, s: Id, m: Move, to: Id, menuItem: nat, price: nat)
    requires LineMoves(items, s, m) && to != s
    ensures Total(MoveOne(items, m, to), UnitsIn(to, menuItem, price))
         == Total(items, UnitsIn(to, menuItem, price)) + UnitsAsked(items, menuItem, price)(m)
  {
    var it := items[m.item];
    if m.quantity == it.quantity {
      TotalUpdate(items, m.item, it.(session := to), UnitsIn(to, menuItem, price));
    } else {
      TotalUpdate(items, m.item, KeptPart(it, m.quantity), UnitsIn(to, menuItem, price));
      TotalAppend(items[m.item := KeptPart(it, m.quantity)], MovedPart(it, m.quantity, to), UnitsIn(to, menuItem, price));
    }
  }

  lemma {:induction false} AskedIsMoved(items: seq<Item>, s: Id, moves: seq<Move>, to: Id, menuItem: nat, price: nat)
    requires AllMove(items, s, moves) && to != s
    ensures Total(MoveAll(items, moves, to), UnitsIn(to, menuItem, price))
         == Total(items, UnitsIn(to, menuItem, price)) + Total(moves, UnitsAsked(items, menuItem, price))
  {
    hide MoveOne, UnitsIn;
    if moves == [] {
      assert MoveAll(items, moves, to) == items;
    } else {
      var n := |moves| - 1;
      AskedIsMoved(items, s, moves[..n], to, menuItem, price);
      MoveAllFrame(items, moves[..n], to, moves[n].item);
      assert LineMoves(items, s, moves[n]);
      OneMoveAdds(MoveAll(items, moves[..n], to), s, moves[n], to, menuItem, price);
    }
  }

  lemma {:induction false} CheckedMeansMoves(items: seq<Item>, s: Id, moves: seq<Move>)
    ensures CheckMoves(items, s, moves).None? <==> forall j :: 0 <= j < |moves| ==> LineMoves(items, s, moves[j])
  {
    if moves != [] {
      CheckedMeansMoves(items, s, moves[..|moves| - 1]);
      assert forall j :: 0 <= j < |moves| - 1 ==> moves[j] == moves[..|moves| - 1][j];
      assert CheckMove(items, s, moves[|moves| - 1]).None? <==> LineMoves(items, s, moves[|moves| - 1]);
    }
  }

  /** A split needs a table at which nobody sits, an active session that is not online, and lines of it that may move,
      none twice. The new session then has, of everything, exactly what was asked for. */
  ghost predicate SplitSays(before: Db, o: Outcome, s: Id, to: Id, moves: seq<Move>) {
    && (o.Ok? <==>
          && TableExists(before, to) && FindActive(before.sessions, to).None?
          && s < |before.sessions| && before.sessions[s].status == Active && before.sessions[s].request.None?
          && AllMove(before.items, s, moves))
    && (o.Ok? ==>
         var seat := |before.sessions|;
         && o.db == before.(items := o.db.items, tables := before.tables[to := Table(Occupied, false)],
                            sessions := before.sessions + [Session(Some(to), Active, None)])
         && RowsSplit(before.items, o.db.items, moves, seat)
         && forall menuItem, price :: Total(o.db.items, UnitsIn(seat, menuItem, price)) == Total(moves, UnitsAsked(before.items, menuItem, price)))
  }

  lemma NobodyOrderedYet(db: Db, capacity: nat)
    requires Inv(db, capacity)
    ensures forall menuItem, price :: Total(db.items, UnitsIn(|db.sessions|, menuItem, price)) == 0
  {
    forall menuItem, price
      ensures Total(db.items, UnitsIn(|db.sessions|, menuItem, price)) == 0
    {
      forall i | 0 <= i < |db.items|
        ensures UnitsIn(|db.sessions|, menuItem, price)(db.items[i]) == 0
      {
        assert ItemOk(db.items[i], db.sessions, db.invoices);
      }
      TotalZero(db.items, UnitsIn(|db.sessions|, menuItem, price));
    }
  }

  lemma SplitAnswers(db: Db, s: Id, to: Id, moves: seq<Move>, capacity: nat)
    requires Inv(db, capacity)
    ensures SplitSays(db, SplitTable(db, s, to, moves), s, to, moves)
  {
    hide Inv, FindActive, CheckMoves, RowsSplit, LineMoves, MoveAll;
    CheckedMeansMoves(db.items, s, moves);
    if TableExists(db, to) {
      TableTells(db, to, capacity);
    }
    if SplitTable(db, s, to, moves).Ok? {
      MoveAllSplits(db.items, s, moves, |db.sessions|);
      NobodyOrderedYet(db, capacity);
      forall menuItem, price
        ensures Total(MoveAll(db.items, moves, |db.sessions|), UnitsIn(|db.sessions|, menuItem, price)) == Total(moves, UnitsAsked(db.items, menuItem, price))
      {
        AskedIsMoved(db.items, s, moves, |db.sessions|, menuItem, price);
      }
    }
  }
}

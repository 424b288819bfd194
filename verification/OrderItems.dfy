/** What holds of every order item, and what invoices and sessions rely on. */
module OrderItems {
  import opened Sums
  import opened OrderTables
  import opened OrderStock

  /** Stock is taken once, when cooking starts, and written off once at most, and only after it was taken. */
  ghost predicate CountsOk(it: Item) {
    match it.status
    case Pending => it.consumed == 0 && it.wasted == 0
    case Cooking => it.consumed == 1 && it.wasted == 0
    case Ready => it.consumed == 1 && it.wasted == 0
    case Served => it.consumed == 1 && it.wasted == (if it.remadeAs.Some? then 1 else 0)
    case Cancelled => it.wasted == it.consumed <= 1
  }

  /** An item on an invoice belongs to the invoice's session and is paid exactly when the invoice is; a paid
      item without an invoice is a replacement, which costs nothing. */
  ghost predicate BillOk(it: Item, invoices: seq<Invoice>) {
    && (it.invoice.Some? ==>
         var v := it.invoice.value;
         && v < |invoices| && invoices[v].session == it.session && invoices[v].status != Voided && it.status != Cancelled
         && (it.paid <==> invoices[v].status != Unpaid) && it.remakeOf.None?)
    && (it.paid && it.invoice.None? ==> it.remakeOf.Some?)
    && (it.remakeOf.Some? ==> it.paid && it.price == 0 && it.invoice.None? && it.remadeAs.None?)
    && (it.remadeAs.Some? ==> it.status == Served && it.paid && it.invoice.Some?)
  }

  /** A completed session has no live unpaid item and a cancelled one only cancelled items; while an online
      order is active all of its items are open. Only an item on an invoice or of an online order holds stock. */
  ghost predicate PlaceOk(it: Item, sessions: seq<Session>) {
    && it.session < |sessions|
    && var s := sessions[it.session];
       && (s.status == Completed ==> it.status == Cancelled || it.paid)
       && (s.status == SessionCancelled ==> it.status == Cancelled)
       && (s.status == Active && s.request.Some? ==> it.status != Cancelled && !it.paid && it.invoice.None?)
       && (it.held != map[] ==> it.status == Pending && (it.invoice.Some? || s.request.Some?))
  }

  ghost predicate TicketOk(it: Item) { it.ticket.Some? ==> it.ticket.value == it.quantity }

  ghost predicate ItemOk(it: Item, sessions: seq<Session>, invoices: seq<Invoice>) {
    CountsOk(it) && BillOk(it, invoices) && PlaceOk(it, sessions) && TicketOk(it)
  }

  ghost predicate ItemsOk(items: seq<Item>, sessions: seq<Session>, invoices: seq<Invoice>) {
    forall i :: 0 <= i < |items| ==> ItemOk(items[i], sessions, invoices)
  }

  /** A remake and its original name each other. */
  ghost predicate LinkOk(i: Id, it: Item, items: seq<Item>) {
    && (it.remakeOf.Some? ==> it.remakeOf.value < |items| && items[it.remakeOf.value].remadeAs == Some(i))
    && (it.remadeAs.Some? ==> it.remadeAs.value < |items| && items[it.remadeAs.value].remakeOf == Some(i))
  }

  ghost predicate LinksOk(items: seq<Item>) {
    forall i :: 0 <= i < |items| ==> LinkOk(i, items[i], items)
  }

  /** The subtotal of an invoice is the sum over the items linked to it, unless it was voided. */
  ghost predicate InvoiceOk(v: Id, inv: Invoice, items: seq<Item>, sessions: seq<Session>) {
    && inv.session < |sessions|
    && (inv.status != Voided ==> Total(items, LineOf(v)) == inv.subTotal)
    && (inv.status == Unpaid ==> sessions[inv.session].request.None?)
    && inv.total == Taxable(inv.subTotal, inv.discount) + inv.tax && inv.tax >= 0
  }

  ghost predicate InvoicesOk(invoices: seq<Invoice>, items: seq<Item>, sessions: seq<Session>) {
    forall v :: 0 <= v < |invoices| ==> InvoiceOk(v, invoices[v], items, sessions)
  }

  // ----- frames -----

  predicate SameLinks(it: Item, other: Item) { it.remakeOf == other.remakeOf && it.remadeAs == other.remadeAs }
  predicate SameLine(it: Item, other: Item) { it.invoice == other.invoice && it.price == other.price && it.quantity == other.quantity }

  lemma LinksStay(before: seq<Item>, after: seq<Item>)
    requires LinksOk(before) && |after| == |before| && forall i :: 0 <= i < |before| ==> SameLinks(before[i], after[i])
    ensures LinksOk(after)
  {
    forall i | 0 <= i < |after| ensures LinkOk(i, after[i], after) {
      assert LinkOk(i, before[i], before);
    }
  }

  lemma LinesStay(invoices: seq<Invoice>, before: seq<Item>, after: seq<Item>, sessions: seq<Session>)
    requires InvoicesOk(invoices, before, sessions) && |after| == |before|
    requires forall i :: 0 <= i < |before| ==> SameLine(before[i], after[i])
    ensures InvoicesOk(invoices, after, sessions)
  {
    forall v | 0 <= v < |invoices| ensures InvoiceOk(v, invoices[v], after, sessions) {
      assert InvoiceOk(v, invoices[v], before, sessions);
      TotalsAgree(before, after, LineOf(v), LineOf(v));
    }
  }

  /** New items that nobody has invoiced, and no remakes. */
  lemma NewLinesStay(invoices: seq<Invoice>, items: seq<Item>, more: seq<Item>, sessions: seq<Session>)
    requires InvoicesOk(invoices, items, sessions) && LinksOk(items)
    requires forall i :: 0 <= i < |more| ==> more[i].invoice.None? && more[i].remakeOf.None? && more[i].remadeAs.None?
    ensures InvoicesOk(invoices, items + more, sessions) && LinksOk(items + more)
  {
    forall v | 0 <= v < |invoices| ensures InvoiceOk(v, invoices[v], items + more, sessions) {
      assert InvoiceOk(v, invoices[v], items, sessions);
      TotalConcat(items, more, LineOf(v));
      TotalZero(more, LineOf(v));
    }
    forall i | 0 <= i < |items + more| ensures LinkOk(i, (items + more)[i], items + more) {
      if i < |items| {
        assert LinkOk(i, items[i], items);
      }
    }
  }

  /** New sessions change nothing for the old items and invoices. */
  lemma NewSessionStays(items: seq<Item>, invoices: seq<Invoice>, sessions: seq<Session>, s: Session)
    requires ItemsOk(items, sessions, invoices) && InvoicesOk(invoices, items, sessions)
    ensures ItemsOk(items, sessions + [s], invoices) && InvoicesOk(invoices, items, sessions + [s])
  {
    forall i | 0 <= i < |items| ensures ItemOk(items[i], sessions + [s], invoices) {
      assert ItemOk(items[i], sessions, invoices);
    }
    forall v | 0 <= v < |invoices| ensures InvoiceOk(v, invoices[v], items, sessions + [s]) {
      assert InvoiceOk(v, invoices[v], items, sessions);
    }
  }
}

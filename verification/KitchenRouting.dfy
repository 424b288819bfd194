/** Kitchen tickets: the items of one order are grouped by the station that prepares them. */
module KitchenRouting {
  import opened Sums

  type Id = nat
  type Station = nat

  datatype OrderLine = OrderLine(item: Id, menuItem: nat, quantity: nat)
  datatype Ticket = Ticket(station: Station, dueAt: int, availableAt: int, lines: seq<OrderLine>)
  datatype Routing = Routed(tickets: seq<Ticket>) | Refused

  /** The station of a menu item; a menu item that is not on the menu, or has none, is not routed. */
  function StationOf(menu: map<nat, Option<Station>>, l: OrderLine): Option<Station> {
    if l.menuItem in menu then menu[l.menuItem] else None
  }

  /** The lines that go to the station `s`, in order. */
  function LinesFor(menu: map<nat, Option<Station>>, lines: seq<OrderLine>, s: Station): seq<OrderLine> {
    if lines == [] then []
    else
      var n := |lines| - 1;
      LinesFor(menu, lines[..n], s) + if StationOf(menu, lines[n]) == Some(s) then [lines[n]] else []
  }

  lemma {:induction false} LinesForHas(menu: map<nat, Option<Station>>, lines: seq<OrderLine>, s: Station, l: OrderLine)
    ensures l in LinesFor(menu, lines, s) <==> l in lines && StationOf(menu, l) == Some(s)
  {
    if lines != [] {
      LinesForHas(menu, lines[..|lines| - 1], s, l);
      assert lines == lines[..|lines| - 1] + [lines[|lines| - 1]];
    }
  }

  function Quantity(): OrderLine -> int { (l: OrderLine) => l.quantity }
  function RoutedQuantity(menu: map<nat, Option<Station>>, s: Station): OrderLine -> int {
    (l: OrderLine) => if StationOf(menu, l) == Some(s) then l.quantity else 0
  }

  /** A ticket asks for as much as was ordered from its station. */
  lemma {:induction false} LinesForQuantity(menu: map<nat, Option<Station>>, lines: seq<OrderLine>, s: Station)
    ensures Total(LinesFor(menu, lines, s), Quantity()) == Total(lines, RoutedQuantity(menu, s))
  {
    if lines != [] {
      var n := |lines| - 1;
      LinesForQuantity(menu, lines[..n], s);
      if StationOf(menu, lines[n]) == Some(s) {
        TotalAppend(LinesFor(menu, lines[..n], s), lines[n], Quantity());
      } else {
        assert LinesFor(menu, lines, s) == LinesFor(menu, lines[..n], s);
      }
    }
  }

  predicate Distinct(s: seq<Station>) { forall i, j :: 0 <= i < j < |s| ==> s[i] != s[j] }

  /** The stations of the lines, each once. */
  predicate StationsOf(menu: map<nat, Option<Station>>, lines: seq<OrderLine>, stations: seq<Station>) {
    Distinct(stations) && (forall k :: 0 <= k < |lines| ==> StationOf(menu, lines[k]).Some? ==> StationOf(menu, lines[k]).value in stations)
    && forall s :: s in stations ==> LinesFor(menu, lines, s) != []
  }

  predicate TicketOk(menu: map<nat, Option<Station>>, lines: seq<OrderLine>, t: Ticket, sla: nat, pickupAt: Option<int>, now: int) {
    && t.lines == LinesFor(menu, lines, t.station) && t.lines != []
    && t.dueAt == (if pickupAt.Some? then pickupAt.value else now + sla)
    && now <= t.availableAt && t.dueAt - sla <= t.availableAt && (t.availableAt == now || t.availableAt == t.dueAt - sla)
  }

  lemma NewStation(menu: map<nat, Option<Station>>, lines: seq<OrderLine>, stations: seq<Station>, s: Station)
    requires StationsOf(menu, lines, stations) && s !in stations
    ensures LinesFor(menu, lines, s) == []
  {
    if LinesFor(menu, lines, s) != [] {
      LinesForHas(menu, lines, s, LinesFor(menu, lines, s)[0]);
    }
  }

  ghost predicate Grouped(menu: map<nat, Option<Station>>, lines: seq<OrderLine>, stations: seq<Station>, groups: map<Station, seq<OrderLine>>) {
    StationsOf(menu, lines, stations) && SameStations(stations, groups) && GroupsHold(menu, lines, groups)
  }

  ghost predicate SameStations(stations: seq<Station>, groups: map<Station, seq<OrderLine>>) {
    forall s :: s in groups <==> s in stations
  }

  ghost predicate GroupsHold(menu: map<nat, Option<Station>>, lines: seq<OrderLine>, groups: map<Station, seq<OrderLine>>) {
    forall s :: s in groups ==> groups[s] == LinesFor(menu, lines, s)
  }

  function AddToGroup(groups: map<Station, seq<OrderLine>>, s: Station, l: OrderLine): map<Station, seq<OrderLine>> {
    groups[s := (if s in groups then groups[s] else []) + [l]]
  }

  lemma GroupUnrouted(menu: map<nat, Option<Station>>, lines: seq<OrderLine>, l: OrderLine, stations: seq<Station>, groups: map<Station, seq<OrderLine>>)
    requires Grouped(menu, lines, stations, groups) && StationOf(menu, l).None?
    ensures Grouped(menu, lines + [l], stations, groups)
  {
    assert (lines + [l])[..|lines|] == lines;
  }

  lemma StationsRouted(menu: map<nat, Option<Station>>, lines: seq<OrderLine>, l: OrderLine, stations: seq<Station>)
    requires StationsOf(menu, lines, stations) && StationOf(menu, l).Some?
    ensures var s := StationOf(menu, l).value;
            StationsOf(menu, lines + [l], if s in stations then stations else stations + [s])
  {
    assert (lines + [l])[..|lines|] == lines;
    var s := StationOf(menu, l).value;
    var after := if s in stations then stations else stations + [s];
    forall t | t in after ensures LinesFor(menu, lines + [l], t) != [] {
      assert LinesFor(menu, lines + [l], t) == LinesFor(menu, lines, t) + if t == s then [l] else [];
    }
  }

  lemma LinesForMore(menu: map<nat, Option<Station>>, lines: seq<OrderLine>, l: OrderLine, s: Station)
    ensures LinesFor(menu, lines + [l], s) == LinesFor(menu, lines, s) + if StationOf(menu, l) == Some(s) then [l] else []
  {
    assert (lines + [l])[..|lines|] == lines;
  }

  lemma LinesAdded(menu: map<nat, Option<Station>>, lines: seq<OrderLine>, l: OrderLine, groups: map<Station, seq<OrderLine>>)
    requires GroupsHold(menu, lines, groups) && StationOf(menu, l).Some?
    requires StationOf(menu, l).value !in groups ==> LinesFor(menu, lines, StationOf(menu, l).value) == []
    ensures GroupsHold(menu, lines + [l], AddToGroup(groups, StationOf(menu, l).value, l))
  {
    hide LinesFor;
    var after := AddToGroup(groups, StationOf(menu, l).value, l);
    forall t | t in after ensures after[t] == LinesFor(menu, lines + [l], t) {
      LinesForMore(menu, lines, l, t);
    }
  }

  lemma StationAdded(stations: seq<Station>, groups: map<Station, seq<OrderLine>>, s: Station, l: OrderLine)
    requires SameStations(stations, groups)
    ensures SameStations(if s in groups then stations else stations + [s], AddToGroup(groups, s, l))
  {
  }

  lemma GroupRouted(menu: map<nat, Option<Station>>, lines: seq<OrderLine>, l: OrderLine, stations: seq<Station>, groups: map<Station, seq<OrderLine>>)
    requires Grouped(menu, lines, stations, groups) && StationOf(menu, l).Some?
    ensures var s := StationOf(menu, l).value;
            Grouped(menu, lines + [l], if s in groups then stations else stations + [s], AddToGroup(groups, s, l))
  {
    var s := StationOf(menu, l).value;
    StationsRouted(menu, lines, l, stations);
    if s !in groups {
      NewStation(menu, lines, stations, s);
    }
    assert s in groups <==> s in stations;
    hide StationsOf, SameStations, GroupsHold, LinesFor, StationOf;
    LinesAdded(menu, lines, l, groups);
    StationAdded(stations, groups, s, l);
  }

  predicate AllRouted(menu: map<nat, Option<Station>>, lines: seq<OrderLine>) {
    forall k :: 0 <= k < |lines| ==> StationOf(menu, lines[k]).Some?
  }

  /** The groups of an order; `None` if the order is scheduled and a line has no station. */
  method GroupByStation(menu: map<nat, Option<Station>>, lines: seq<OrderLine>, scheduled: bool)
    returns (r: Option<map<Station, seq<OrderLine>>>, stations: seq<Station>)
    ensures r.None? <==> scheduled && !AllRouted(menu, lines)
    ensures r.Some? ==> Grouped(menu, lines, stations, r.value)
  {
    stations := [];
    var groups: map<Station, seq<OrderLine>> := map[];
    ghost var seen: seq<OrderLine> := [];
    for k := 0 to |lines|
      invariant seen == lines[..k]
      invariant scheduled ==> AllRouted(menu, seen)
      invariant Grouped(menu, seen, stations, groups)
    {
      var l := lines[k];
      var station := StationOf(menu, l);
      if station.None? && scheduled {
        r := None;
        return;
      }
      stations, groups := PutInGroup(menu, seen, l, stations, groups);
      seen := seen + [l];
    }
    assert seen == lines;
    r := Some(groups);
  }

  method PutInGroup(menu: map<nat, Option<Station>>, ghost seen: seq<OrderLine>, l: OrderLine, stations: seq<Station>, groups: map<Station, seq<OrderLine>>)
    returns (newStations: seq<Station>, newGroups: map<Station, seq<OrderLine>>)
    requires Grouped(menu, seen, stations, groups)
    ensures Grouped(menu, seen + [l], newStations, newGroups)
  {
    newStations, newGroups := stations, groups;
    var station := StationOf(menu, l);
    if station.None? {
      GroupUnrouted(menu, seen, l, stations, groups);
    } else {
      GroupRouted(menu, seen, l, stations, groups);
      hide Grouped;
      if station.value !in groups {
        newStations := stations + [station.value];
      }
      newGroups := AddToGroup(groups, station.value, l);
    }
  }

  /** One ticket per station that has a line, holding exactly its lines; a scheduled order must be wholly
      routed and still lie ahead. Nobody can start before the ticket is available, and that is never before
      now nor earlier than the station needs. */
  method CreateTickets(menu: map<nat, Option<Station>>, sla: map<Station, nat>, lines: seq<OrderLine>, pickupAt: Option<int>, now: int)
    returns (r: Routing)
    requires forall k :: 0 <= k < |lines| && StationOf(menu, lines[k]).Some? ==> StationOf(menu, lines[k]).value in sla
    ensures r.Refused? <==> pickupAt.Some? && (pickupAt.value <= now || !AllRouted(menu, lines))
    ensures r.Routed? ==> forall i :: 0 <= i < |r.tickets| ==>
              r.tickets[i].station in sla && TicketOk(menu, lines, r.tickets[i], sla[r.tickets[i].station], pickupAt, now)
    ensures r.Routed? ==> forall i, j :: 0 <= i < j < |r.tickets| ==> r.tickets[i].station != r.tickets[j].station
    ensures r.Routed? ==> forall k :: 0 <= k < |lines| ==> StationOf(menu, lines[k]).Some? ==>
              exists i :: 0 <= i < |r.tickets| && r.tickets[i].station == StationOf(menu, lines[k]).value
  {
    if pickupAt.Some? && pickupAt.value <= now {
      return Refused;
    }
    var groups, stations := GroupByStation(menu, lines, pickupAt.Some?);
    if groups.None? {
      return Refused;
    }
    var tickets: seq<Ticket> := [];
    for n := 0 to |stations|
      invariant |tickets| == n
      invariant forall i :: 0 <= i < n ==> tickets[i].station == stations[i] && stations[i] in sla
                                           && TicketOk(menu, lines, tickets[i], sla[stations[i]], pickupAt, now)
    {
      var s := stations[n];
      LinesForHas(menu, lines, s, LinesFor(menu, lines, s)[0]);
      var dueAt := if pickupAt.Some? then pickupAt.value else now + sla[s];
      var availableAt := if now >= dueAt - sla[s] then now else dueAt - sla[s];
      tickets := tickets + [Ticket(s, dueAt, availableAt, groups.value[s])];
    }
    forall k | 0 <= k < |lines| && StationOf(menu, lines[k]).Some?
      ensures exists i :: 0 <= i < |tickets| && tickets[i].station == StationOf(menu, lines[k]).value
    {
      var i :| 0 <= i < |stations| && stations[i] == StationOf(menu, lines[k]).value;
      assert tickets[i].station == stations[i];
    }
    return Routed(tickets);
  }

  /** The tickets of an order together hold every routed line: each line is on the ticket of its station, on
      no other, and the ticket asks for what was ordered there. */
  lemma TicketsCoverTheOrder(menu: map<nat, Option<Station>>, lines: seq<OrderLine>, s: Station, l: OrderLine)
    ensures l in LinesFor(menu, lines, s) <==> l in lines && StationOf(menu, l) == Some(s)
    ensures Total(LinesFor(menu, lines, s), Quantity()) == Total(lines, RoutedQuantity(menu, s))
  {
    LinesForHas(menu, lines, s, l);
    LinesForQuantity(menu, lines, s);
  }
}

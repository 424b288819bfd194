/** Resolving the options chosen for a menu item into a price, a stored selection and a recipe. */
module MenuSelection {
  import opened Sums

  type Id = nat

  const MAX_OPTIONS := 20
  const MAX_PRICE := 999_999_999_999_999_999

  datatype Ingredient = Ingredient(item: Id, quantity: int, active: bool)
  datatype MenuOption = MenuOption(id: Id, name: string, priceDelta: int, ingredients: seq<Ingredient>)
  datatype Group = Group(name: string, minSelected: nat, maxSelected: nat, options: seq<MenuOption>)
  datatype MenuItem = MenuItem(price: int, ingredients: seq<Ingredient>, groups: seq<Group>)

  datatype Selected = Selected(id: Id, groupName: string, name: string, priceDelta: int)
  datatype Error = InvalidSelection | InactiveIngredient | InvalidGroup | Unavailable | PriceTooHigh
  datatype Resolution = Resolved(unitPrice: int, selected: seq<Selected>, recipe: map<Id, int>) | Rejected(error: Error)

  // ----- the meaning of a selection, as a set of option ids -----

  /** The options of a group that are chosen, in menu order. */
  function ChosenIn(options: seq<MenuOption>, chosen: set<Id>): seq<MenuOption> {
    if options == [] then []
    else
      var n := |options| - 1;
      ChosenIn(options[..n], chosen) + if options[n].id in chosen then [options[n]] else []
  }

  /** All chosen options with their groups, in menu order. */
  function Chosen(groups: seq<Group>, chosen: set<Id>): seq<(Group, MenuOption)> {
    if groups == [] then []
    else
      var g := groups[|groups| - 1];
      Chosen(groups[..|groups| - 1], chosen) + Labelled(g, ChosenIn(g.options, chosen))
  }

  function Labelled(g: Group, options: seq<MenuOption>): (r: seq<(Group, MenuOption)>)
    ensures |r| == |options| && forall i :: 0 <= i < |options| ==> r[i] == (g, options[i])
  {
    seq(|options|, i requires 0 <= i < |options| => (g, options[i]))
  }

  function Store(c: (Group, MenuOption)): Selected { Selected(c.1.id, c.0.name, c.1.name, c.1.priceDelta) }

  function StoreAll(cs: seq<(Group, MenuOption)>): (r: seq<Selected>)
    ensures |r| == |cs| && forall i :: 0 <= i < |cs| ==> r[i] == Store(cs[i])
  {
    seq(|cs|, i requires 0 <= i < |cs| => Store(cs[i]))
  }

  function PriceDelta(): ((Group, MenuOption)) -> int { (c: (Group, MenuOption)) => c.1.priceDelta }

  function QuantityOf(k: Id): Ingredient -> int { (g: Ingredient) => if g.item == k then g.quantity else 0 }
  function OptionQuantityOf(k: Id): ((Group, MenuOption)) -> int { (c: (Group, MenuOption)) => Total(c.1.ingredients, QuantityOf(k)) }

  predicate AllActive(ingredients: seq<Ingredient>) { forall i :: 0 <= i < |ingredients| ==> ingredients[i].active }

  predicate GroupOk(g: Group, chosen: set<Id>) { g.minSelected <= |ChosenIn(g.options, chosen)| <= g.maxSelected }

  predicate OptionIn(groups: seq<Group>, id: Id) {
    exists i, j :: 0 <= i < |groups| && 0 <= j < |groups[i].options| && groups[i].options[j].id == id
  }

  /** When a set of option ids can be ordered: every group is satisfied, every id is on the menu, nothing
      inactive is needed, and the price is representable. */
  predicate Orderable(m: MenuItem, chosen: set<Id>) {
    && AllActive(m.ingredients)
    && (forall i :: 0 <= i < |m.groups| ==> GroupOk(m.groups[i], chosen))
    && (forall id :: id in chosen ==> OptionIn(m.groups, id))
    && (forall i :: 0 <= i < |Chosen(m.groups, chosen)| ==> AllActive(Chosen(m.groups, chosen)[i].1.ingredients))
    && m.price + Total(Chosen(m.groups, chosen), PriceDelta()) <= MAX_PRICE
  }

  predicate Mentions(ingredients: seq<Ingredient>, k: Id) { exists i :: 0 <= i < |ingredients| && ingredients[i].item == k }

  /** The amount of ingredient `k` per unit: that of the base and of exactly the chosen options. */
  function AmountOf(base: seq<Ingredient>, cs: seq<(Group, MenuOption)>, k: Id): int {
    Total(base, QuantityOf(k)) + Total(cs, OptionQuantityOf(k))
  }

  predicate Needed(base: seq<Ingredient>, cs: seq<(Group, MenuOption)>, k: Id) {
    Mentions(base, k) || exists i :: 0 <= i < |cs| && Mentions(cs[i].1.ingredients, k)
  }

  ghost predicate RecipeFor(base: seq<Ingredient>, cs: seq<(Group, MenuOption)>, recipe: map<Id, int>) {
    (forall k :: k in recipe <==> Needed(base, cs, k)) && forall k :: k in recipe ==> recipe[k] == AmountOf(base, cs, k)
  }

  /** An option id is a primary key: it stands in one group, once. */
  predicate UniqueOptions(groups: seq<Group>) {
    forall g, h, i, j :: 0 <= g < |groups| && 0 <= h < |groups| && 0 <= i < |groups[g].options| && 0 <= j < |groups[h].options| ==>
      groups[g].options[i].id == groups[h].options[j].id ==> g == h && i == j
  }

  predicate NoDuplicates(ids: seq<Id>) { forall i, j :: 0 <= i < j < |ids| ==> ids[i] != ids[j] }

  function SetOf(ids: seq<Id>): set<Id> { set id | id in ids }

  /** The answer as a function of the set alone. */
  ghost predicate Answers(m: MenuItem, chosen: set<Id>, r: Resolution) {
    match r
    case Resolved(unitPrice, selected, recipe) =>
      && Orderable(m, chosen)
      && unitPrice == m.price + Total(Chosen(m.groups, chosen), PriceDelta())
      && selected == StoreAll(Chosen(m.groups, chosen))
      && RecipeFor(m.ingredients, Chosen(m.groups, chosen), recipe)
    case Rejected(_) => !Orderable(m, chosen)
  }

  // ----- the loops -----

  /** Adds ingredients to a recipe; an inactive one stops the resolution. */
  method AddIngredients(ingredients: seq<Ingredient>, recipe: map<Id, int>) returns (ok: bool, after: map<Id, int>)
    ensures ok <==> AllActive(ingredients)
    ensures ok ==> (forall k :: k in after <==> k in recipe || Mentions(ingredients, k))
                   && forall k :: k in after ==> after[k] == (if k in recipe then recipe[k] else 0) + Total(ingredients, QuantityOf(k))
  {
    after := recipe;
    for i := 0 to |ingredients|
      invariant AllActive(ingredients[..i])
      invariant forall k :: k in after <==> k in recipe || Mentions(ingredients[..i], k)
      invariant forall k :: k in after ==> after[k] == (if k in recipe then recipe[k] else 0) + Total(ingredients[..i], QuantityOf(k))
    {
      var g := ingredients[i];
      if !g.active {
        return false, after;
      }
      assert ingredients[..i + 1] == ingredients[..i] + [g];
      MentionsNext(ingredients[..i], g);
      forall k ensures Total(ingredients[..i + 1], QuantityOf(k)) == Total(ingredients[..i], QuantityOf(k)) + QuantityOf(k)(g) {
        TotalAppend(ingredients[..i], g, QuantityOf(k));
      }
      NotMentioned(ingredients[..i], g.item);
      after := after[g.item := (if g.item in after then after[g.item] else 0) + g.quantity];
    }
    assert ingredients[..|ingredients|] == ingredients;
    return true, after;
  }

  lemma MentionsNext(ingredients: seq<Ingredient>, g: Ingredient)
    ensures forall k :: Mentions(ingredients + [g], k) <==> Mentions(ingredients, k) || k == g.item
  {
    forall k ensures Mentions(ingredients + [g], k) <==> Mentions(ingredients, k) || k == g.item {
      if k == g.item {
        assert (ingredients + [g])[|ingredients|].item == k;
      }
      if Mentions(ingredients, k) {
        var i :| 0 <= i < |ingredients| && ingredients[i].item == k;
        assert (ingredients + [g])[i].item == k;
      }
    }
  }

  lemma NotMentioned(ingredients: seq<Ingredient>, k: Id)
    ensures !Mentions(ingredients, k) ==> Total(ingredients, QuantityOf(k)) == 0
  {
    if !Mentions(ingredients, k) {
      TotalZero(ingredients, QuantityOf(k));
    }
  }

  /** What has been resolved for the options `cs` so far. */
  ghost predicate SoFar(m: MenuItem, cs: seq<(Group, MenuOption)>, unitPrice: int, selected: seq<Selected>, recipe: map<Id, int>) {
    && unitPrice == m.price + Total(cs, PriceDelta()) && selected == StoreAll(cs) && RecipeFor(m.ingredients, cs, recipe)
    && forall i :: 0 <= i < |cs| ==> AllActive(cs[i].1.ingredients)
  }

  lemma OneMore(m: MenuItem, cs: seq<(Group, MenuOption)>, c: (Group, MenuOption), unitPrice: int, selected: seq<Selected>, recipe: map<Id, int>, after: map<Id, int>)
    requires SoFar(m, cs, unitPrice, selected, recipe) && AllActive(c.1.ingredients)
    requires forall k :: k in after <==> k in recipe || Mentions(c.1.ingredients, k)
    requires forall k :: k in after ==> after[k] == (if k in recipe then recipe[k] else 0) + Total(c.1.ingredients, QuantityOf(k))
    ensures SoFar(m, cs + [c], unitPrice + c.1.priceDelta, selected + [Store(c)], after)
  {
    TotalAppend(cs, c, PriceDelta());
    forall k ensures Needed(m.ingredients, cs + [c], k) <==> Needed(m.ingredients, cs, k) || Mentions(c.1.ingredients, k) {
      if Mentions(c.1.ingredients, k) {
        assert (cs + [c])[|cs|] == c;
      }
      if exists i :: 0 <= i < |cs| && Mentions(cs[i].1.ingredients, k) {
        var i :| 0 <= i < |cs| && Mentions(cs[i].1.ingredients, k);
        assert (cs + [c])[i] == cs[i];
      }
    }
    forall k | k in after ensures after[k] == AmountOf(m.ingredients, cs + [c], k) {
      TotalAppend(cs, c, OptionQuantityOf(k));
      if k !in recipe {
        UnneededIsZero(m.ingredients, cs, k);
      }
    }
  }

  lemma UnneededIsZero(base: seq<Ingredient>, cs: seq<(Group, MenuOption)>, k: Id)
    requires !Needed(base, cs, k)
    ensures AmountOf(base, cs, k) == 0
  {
    NotMentioned(base, k);
    forall i | 0 <= i < |cs| ensures OptionQuantityOf(k)(cs[i]) == 0 {
      NotMentioned(cs[i].1.ingredients, k);
    }
    TotalZero(cs, OptionQuantityOf(k));
  }

  /** Adds the chosen options of one group, one after the other. */
  method AddOptions(m: MenuItem, ghost before: seq<(Group, MenuOption)>, g: Group, options: seq<MenuOption>,
                    price: int, stored: seq<Selected>, recipe: map<Id, int>)
    returns (ok: bool, unitPrice: int, selected: seq<Selected>, after: map<Id, int>)
    requires SoFar(m, before, price, stored, recipe)
    ensures ok <==> forall i :: 0 <= i < |options| ==> AllActive(options[i].ingredients)
    ensures ok ==> SoFar(m, before + Labelled(g, options), unitPrice, selected, after)
  {
    unitPrice, selected, after := price, stored, recipe;
    ghost var cs := before;
    for i := 0 to |options|
      invariant cs == before + Labelled(g, options)[..i] && SoFar(m, cs, unitPrice, selected, after)
      invariant forall j :: 0 <= j < i ==> AllActive(options[j].ingredients)
    {
      var option := options[i];
      var more;
      ok, more := AddIngredients(option.ingredients, after);
      if !ok {
        return;
      }
      OneMore(m, cs, (g, option), unitPrice, selected, after, more);
      unitPrice := unitPrice + option.priceDelta;
      selected := selected + [Selected(option.id, g.name, option.name, option.priceDelta)];
      after := more;
      cs := cs + [(g, option)];
    }
    assert cs == before + Labelled(g, options);
    ok := true;
  }

  lemma {:induction false} ChosenInIs(options: seq<MenuOption>, chosen: set<Id>, o: MenuOption)
    ensures o in ChosenIn(options, chosen) <==> o in options && o.id in chosen
  {
    if options != [] {
      ChosenInIs(options[..|options| - 1], chosen, o);
      assert options == options[..|options| - 1] + [options[|options| - 1]];
    }
  }

  /** A group only looks at its own options. */
  lemma {:induction false} ChosenInAgrees(options: seq<MenuOption>, a: set<Id>, b: set<Id>)
    requires forall i :: 0 <= i < |options| ==> (options[i].id in a <==> options[i].id in b)
    ensures ChosenIn(options, a) == ChosenIn(options, b)
  {
    if options != [] {
      ChosenInAgrees(options[..|options| - 1], a, b);
    }
  }

  function IdsOf(options: seq<MenuOption>): set<Id> { set o | o in options :: o.id }

  /** The chosen ids that no group up to now has taken. */
  ghost predicate Left(groups: seq<Group>, chosen: set<Id>, left: set<Id>) {
    forall id :: id in left <==> id in chosen && !OptionIn(groups, id)
  }

  lemma NotInEarlierGroup(groups: seq<Group>, n: nat, i: nat)
    requires n < |groups| && i < |groups[n].options| && UniqueOptions(groups)
    ensures !OptionIn(groups[..n], groups[n].options[i].id)
  {
    assert forall h, j :: 0 <= h < n && 0 <= j < |groups[..n][h].options| ==> groups[h].options[j].id != groups[n].options[i].id;
  }

  lemma LeftAfter(groups: seq<Group>, n: nat, chosen: set<Id>, left: set<Id>)
    requires n < |groups| && UniqueOptions(groups) && Left(groups[..n], chosen, left)
    ensures ChosenIn(groups[n].options, left) == ChosenIn(groups[n].options, chosen)
    ensures Left(groups[..n + 1], chosen, left - IdsOf(ChosenIn(groups[n].options, chosen)))
  {
    var g := groups[n];
    forall i | 0 <= i < |g.options| ensures g.options[i].id in left <==> g.options[i].id in chosen {
      NotInEarlierGroup(groups, n, i);
    }
    ChosenInAgrees(g.options, left, chosen);
    var taken := IdsOf(ChosenIn(g.options, chosen));
    forall id ensures id in left - taken <==> id in chosen && !OptionIn(groups[..n + 1], id) {
      TakenFromGroup(groups, n, chosen, id);
    }
  }

  lemma TakenFromGroup(groups: seq<Group>, n: nat, chosen: set<Id>, id: Id)
    requires n < |groups|
    ensures id in chosen ==> (OptionIn(groups[..n + 1], id) <==> OptionIn(groups[..n], id) || id in IdsOf(ChosenIn(groups[n].options, chosen)))
  {
    var g := groups[n];
    if id in chosen {
      if OptionIn(groups[..n + 1], id) {
        var h, j :| 0 <= h < n + 1 && 0 <= j < |groups[..n + 1][h].options| && groups[..n + 1][h].options[j].id == id;
        if h == n {
          ChosenInIs(g.options, chosen, g.options[j]);
        } else {
          assert groups[..n][h].options[j].id == id;
        }
      }
      if OptionIn(groups[..n], id) {
        var h, j :| 0 <= h < n && 0 <= j < |groups[..n][h].options| && groups[..n][h].options[j].id == id;
        assert groups[..n + 1][h].options[j].id == id;
      }
      if id in IdsOf(ChosenIn(g.options, chosen)) {
        var o :| o in ChosenIn(g.options, chosen) && o.id == id;
        ChosenInIs(g.options, chosen, o);
        var j :| 0 <= j < |g.options| && g.options[j] == o;
        assert groups[..n + 1][n].options[j].id == id;
      }
    }
  }

  lemma ChosenPrefix(groups: seq<Group>, n: nat, chosen: set<Id>)
    requires n < |groups|
    ensures Chosen(groups[..n + 1], chosen) == Chosen(groups[..n], chosen) + Labelled(groups[n], ChosenIn(groups[n].options, chosen))
  {
    assert groups[..n + 1][..n] == groups[..n];
  }

  /** Every option chosen in a group is among all that are chosen. */
  lemma {:induction false} ChosenHasGroup(groups: seq<Group>, n: nat, chosen: set<Id>, i: nat)
    requires n < |groups| && i < |ChosenIn(groups[n].options, chosen)|
    ensures exists k :: 0 <= k < |Chosen(groups, chosen)| && Chosen(groups, chosen)[k] == (groups[n], ChosenIn(groups[n].options, chosen)[i])
  {
    var last := |groups| - 1;
    var g := groups[last];
    var before := Chosen(groups[..last], chosen);
    if n == last {
      assert Chosen(groups, chosen)[|before| + i] == (g, ChosenIn(g.options, chosen)[i]);
    } else {
      ChosenHasGroup(groups[..last], n, chosen, i);
      var k :| 0 <= k < |before| && before[k] == (groups[n], ChosenIn(groups[n].options, chosen)[i]);
      assert Chosen(groups, chosen)[k] == before[k];
    }
  }

  /** Goes through the groups, taking the ids off the set of chosen ids as they are found. */
  method ResolveGroups(m: MenuItem, ghost chosen: set<Id>, ids: set<Id>, base: map<Id, int>)
    returns (error: Option<Error>, selectedIds: set<Id>, unitPrice: int, selected: seq<Selected>, recipe: map<Id, int>)
    requires UniqueOptions(m.groups) && ids == chosen && SoFar(m, Chosen(m.groups[..0], chosen), m.price, [], base)
    ensures error.None? ==> SoFar(m, Chosen(m.groups, chosen), unitPrice, selected, recipe) && Left(m.groups, chosen, selectedIds)
                            && forall i :: 0 <= i < |m.groups| ==> GroupOk(m.groups[i], chosen)
    ensures error.Some? ==> !Orderable(m, chosen)
  {
    error, selectedIds, unitPrice, selected, recipe := None, ids, m.price, [], base;
    assert m.groups[..|m.groups|] == m.groups && Left(m.groups[..0], chosen, ids);
    hide SoFar, UniqueOptions, Left, ChosenIn, Chosen, OptionIn, GroupOk, Orderable;
    for n := 0 to |m.groups|
      invariant SoFar(m, Chosen(m.groups[..n], chosen), unitPrice, selected, recipe)
      invariant Left(m.groups[..n], chosen, selectedIds)
      invariant forall i :: 0 <= i < n ==> GroupOk(m.groups[i], chosen)
    {
      var group := m.groups[n];
      LeftAfter(m.groups, n, chosen, selectedIds);
      ChosenPrefix(m.groups, n, chosen);
      GroupDecides(m, n, chosen);
      var found := ChosenIn(group.options, selectedIds);
      if |found| < group.minSelected || |found| > group.maxSelected {
        error := Some(InvalidGroup);
        return;
      }
      var ok;
      ok, unitPrice, selected, recipe := AddOptions(m, Chosen(m.groups[..n], chosen), group, found, unitPrice, selected, recipe);
      if !ok {
        error := Some(InactiveIngredient);
        return;
      }
      selectedIds := selectedIds - IdsOf(found);
    }
  }

  /** A group can refuse a selection by the number of its options or by an inactive ingredient of one. */
  lemma GroupDecides(m: MenuItem, n: nat, chosen: set<Id>)
    requires n < |m.groups|
    ensures var found := ChosenIn(m.groups[n].options, chosen);
            && (GroupOk(m.groups[n], chosen) <==> m.groups[n].minSelected <= |found| <= m.groups[n].maxSelected)
            && (!GroupOk(m.groups[n], chosen) ==> !Orderable(m, chosen))
            && (!(forall i :: 0 <= i < |found| ==> AllActive(found[i].ingredients)) ==> !Orderable(m, chosen))
  {
    var found := ChosenIn(m.groups[n].options, chosen);
    hide ChosenIn, Chosen;
    if i :| 0 <= i < |found| && !AllActive(found[i].ingredients) {
      ChosenHasGroup(m.groups, n, chosen, i);
    }
  }

  /** Resolves the chosen options of a menu item. The answer depends on the set of their ids alone. */
  method ResolveMenuSelection(m: MenuItem, optionIds: seq<Id>) returns (r: Resolution)
    requires UniqueOptions(m.groups)
    ensures if |optionIds| > MAX_OPTIONS || !NoDuplicates(optionIds) then r == Rejected(InvalidSelection)
            else Answers(m, SetOf(optionIds), r)
  {
    if |optionIds| > MAX_OPTIONS || !NoDuplicates(optionIds) {
      return Rejected(InvalidSelection);
    }
    var ok, base := AddIngredients(m.ingredients, map[]);
    if !ok {
      return Rejected(InactiveIngredient);
    }
    var error, selectedIds, unitPrice, selected, recipe := ResolveGroups(m, SetOf(optionIds), SetOf(optionIds), base);
    if error.Some? {
      return Rejected(error.value);
    }
    if selectedIds != {} {
      return Rejected(Unavailable);
    }
    if unitPrice > MAX_PRICE {
      return Rejected(PriceTooHigh);
    }
    return Resolved(unitPrice, selected, recipe);
  }

  // ----- what follows -----

  /** Two lists with the same ids resolve alike: to the same price, selection and recipe, or not at all. */
  lemma OnlyTheSetMatters(m: MenuItem, chosen: set<Id>, a: Resolution, b: Resolution)
    requires Answers(m, chosen, a) && Answers(m, chosen, b)
    ensures a.Resolved? <==> b.Resolved?
    ensures a.Resolved? ==> a == b
  {
    if a.Resolved? {
      assert a.recipe.Keys == b.recipe.Keys;
      assert forall k :: k in a.recipe ==> a.recipe[k] == b.recipe[k];
      assert a.recipe == b.recipe;
    }
  }

  function StoredIds(selected: seq<Selected>): (r: seq<Id>)
    ensures |r| == |selected| && forall i :: 0 <= i < |selected| ==> r[i] == selected[i].id
  {
    seq(|selected|, i requires 0 <= i < |selected| => selected[i].id)
  }

  lemma {:induction false} ChosenAreChosen(groups: seq<Group>, chosen: set<Id>, k: nat)
    requires k < |Chosen(groups, chosen)|
    ensures Chosen(groups, chosen)[k].1.id in chosen && OptionIn(groups, Chosen(groups, chosen)[k].1.id)
  {
    var n := |groups| - 1;
    var before := Chosen(groups[..n], chosen);
    if k < |before| {
      ChosenAreChosen(groups[..n], chosen, k);
      var id := before[k].1.id;
      var h, j :| 0 <= h < n && 0 <= j < |groups[..n][h].options| && groups[..n][h].options[j].id == id;
      assert groups[h].options[j].id == id;
    } else {
      var o := ChosenIn(groups[n].options, chosen)[k - |before|];
      ChosenInIs(groups[n].options, chosen, o);
      var j :| 0 <= j < |groups[n].options| && groups[n].options[j] == o;
      assert groups[n].options[j].id == o.id;
    }
  }

  /** Of an orderable set, every id is stored. */
  lemma StoredIdsAreTheSet(m: MenuItem, chosen: set<Id>)
    requires Orderable(m, chosen)
    ensures SetOf(StoredIds(StoreAll(Chosen(m.groups, chosen)))) == chosen
  {
    var cs := Chosen(m.groups, chosen);
    var ids := StoredIds(StoreAll(cs));
    forall id | id in ids ensures id in chosen {
      var k :| 0 <= k < |ids| && ids[k] == id;
      ChosenAreChosen(m.groups, chosen, k);
    }
    forall id | id in chosen ensures id in ids {
      assert OptionIn(m.groups, id);
      var n, j :| 0 <= n < |m.groups| && 0 <= j < |m.groups[n].options| && m.groups[n].options[j].id == id;
      ChosenInIs(m.groups[n].options, chosen, m.groups[n].options[j]);
      var i :| 0 <= i < |ChosenIn(m.groups[n].options, chosen)| && ChosenIn(m.groups[n].options, chosen)[i] == m.groups[n].options[j];
      ChosenHasGroup(m.groups, n, chosen, i);
      var k :| 0 <= k < |cs| && cs[k] == (m.groups[n], ChosenIn(m.groups[n].options, chosen)[i]);
      assert ids[k] == id;
    }
  }

  lemma {:induction false} SizeOfSet(ids: seq<Id>)
    requires NoDuplicates(ids)
    ensures |SetOf(ids)| == |ids|
  {
    if ids == [] {
      assert SetOf(ids) == {};
    } else {
      var n := |ids| - 1;
      SizeOfSet(ids[..n]);
      assert ids == ids[..n] + [ids[n]];
      assert SetOf(ids) == SetOf(ids[..n]) + {ids[n]};
    }
  }

  lemma {:induction false} ChosenInOnce(options: seq<MenuOption>, chosen: set<Id>)
    requires forall i, j :: 0 <= i < j < |options| ==> options[i].id != options[j].id
    ensures forall i, j :: 0 <= i < j < |ChosenIn(options, chosen)| ==> ChosenIn(options, chosen)[i].id != ChosenIn(options, chosen)[j].id
  {
    if options != [] {
      var n := |options| - 1;
      ChosenInOnce(options[..n], chosen);
      forall i | 0 <= i < |ChosenIn(options[..n], chosen)| ensures ChosenIn(options[..n], chosen)[i].id != options[n].id {
        ChosenInIs(options[..n], chosen, ChosenIn(options[..n], chosen)[i]);
      }
    }
  }

  lemma {:induction false} ChosenOnce(groups: seq<Group>, chosen: set<Id>)
    requires UniqueOptions(groups)
    ensures forall i, j :: 0 <= i < j < |Chosen(groups, chosen)| ==> Chosen(groups, chosen)[i].1.id != Chosen(groups, chosen)[j].1.id
  {
    if groups != [] {
      var n := |groups| - 1;
      var before, found := Chosen(groups[..n], chosen), ChosenIn(groups[n].options, chosen);
      ChosenOnce(groups[..n], chosen);
      ChosenInOnce(groups[n].options, chosen);
      forall i, j | 0 <= i < |before| && 0 <= j < |found| ensures before[i].1.id != found[j].id {
        ChosenAreChosen(groups[..n], chosen, i);
        ChosenInIs(groups[n].options, chosen, found[j]);
        var k :| 0 <= k < |groups[n].options| && groups[n].options[k] == found[j];
        NotInEarlierGroup(groups, n, k);
      }
    }
  }

  /** Resolving the ids of a stored selection against an unchanged menu gives the same price, selection and
      recipe back, and the list of those ids is a valid one: acceptance never rejects the quote of an order
      whose menu did not change. */
  lemma StoredSelectionResolvesAgain(m: MenuItem, optionIds: seq<Id>, a: Resolution, b: Resolution)
    requires UniqueOptions(m.groups) && |optionIds| <= MAX_OPTIONS && NoDuplicates(optionIds)
    requires Answers(m, SetOf(optionIds), a) && a.Resolved? && Answers(m, SetOf(StoredIds(a.selected)), b)
    ensures |StoredIds(a.selected)| <= MAX_OPTIONS && NoDuplicates(StoredIds(a.selected)) && b == a
  {
    var chosen := SetOf(optionIds);
    StoredIdsAreTheSet(m, chosen);
    ChosenOnce(m.groups, chosen);
    SizeOfSet(optionIds);
    SizeOfSet(StoredIds(a.selected));
    OnlyTheSetMatters(m, chosen, a, b);
  }
}

/**
 * The web grocery page: the category guess with its nine keyword groups,
 * the store grouping of the needed list, the missing essentials, the
 * frequent items and stores, quick add, and the requests the buttons send
 * (move between lists, remove with a buy-again record, and the clear actions).
 */
module GroceryPage {
  import opened Wrappers
  import opened Text
  import opened Seqs
  import opened Sorting
  import opened QuickInput
  import opened GroceryItems

  const Categories: seq<string> :=
    ["Vegetables", "Fruits", "Dairy", "Snacks", "Medicine", "Beverages", "Meat", "Pantry", "Frozen", "Other"]

  const Essentials: seq<string> :=
    ["Milk", "Eggs", "Bread", "Rice", "Butter", "Cheese", "Chicken", "Onions", "Tomatoes", "Bananas"]

  const FruitWords := Group("Fruits", ["apple", "banana", "orange", "grape", "mango", "strawberry", "blueberry"])
  const VegetableWords := Group("Vegetables", ["carrot", "potato", "onion", "tomato", "lettuce", "spinach", "broccoli", "cucumber"])
  const DairyWords := Group("Dairy", ["milk", "cheese", "yogurt", "butter", "cream"])
  const SnackWords := Group("Snacks", ["chips", "cookie", "candy", "chocolate", "popcorn"])
  const MedicineWords := Group("Medicine", ["medicine", "vitamin", "aspirin", "tylenol"])
  const BeverageWords := Group("Beverages", ["water", "juice", "soda", "coffee", "tea"])
  const MeatWords := Group("Meat", ["chicken", "beef", "pork", "fish", "salmon", "shrimp"])
  const PantryWords := Group("Pantry", ["rice", "pasta", "flour", "sugar", "oil", "salt"])
  const FrozenWords := Group("Frozen", ["frozen", "ice cream", "pizza"])

  /** The keyword groups of guessCategory, in the order they are tried. */
  const Groups: seq<Group> :=
    [FruitWords, VegetableWords, DairyWords, SnackWords, MedicineWords, BeverageWords, MeatWords, PantryWords, FrozenWords]

  function GuessCategory(name: string): string
  {
    FirstMatch(Lower(name), Groups)
  }

  /** Each group's category is one of the page's categories other than 'Other'. */
  lemma GroupCategoriesListed()
    ensures forall t :: 0 <= t < |Groups| ==> Groups[t].category in Categories && Groups[t].category != "Other"
  {
    assert forall t :: 0 <= t < |Groups| ==> Groups[t].category == Categories[if t < 2 then 1 - t else t];
  }

  /** The guess is always one of the page's categories. */
  lemma GuessCategoryListed(name: string)
    ensures GuessCategory(name) in Categories
  {
    GroupCategoriesListed();
    assert Categories[9] == "Other";
  }

  /** 'Other' exactly when no keyword of any group occurs in the lower-cased name. */
  lemma GuessCategoryOther(name: string)
    ensures GuessCategory(name) == "Other" <==> forall j :: 0 <= j < |Groups| ==> !Matches(Lower(name), Groups[j])
  {
    GroupCategoriesListed();
    FirstMatchOther(Lower(name), Groups);
  }

  /** A name mentioning "ice cream" is never Frozen: the Dairy keyword
      "cream" is found first. */
  lemma IceCreamNeverFrozen(name: string)
    requires Contains(Lower(name), "ice cream")
    ensures GuessCategory(name) in ["Fruits", "Vegetables", "Dairy"]
  {
    var lower := Lower(name);
    assert "ice " + "cream" == "ice cream";
    ContainsSuffixPart(lower, "ice ", "cream");
    assert DairyWords.words[4] == "cream";
    FirstMatchNoLater(lower, Groups, 2);
  }

  /** Without a fruit or vegetable keyword, "ice cream" is Dairy. */
  lemma IceCreamIsDairy(name: string)
    requires Contains(Lower(name), "ice cream")
    requires !Matches(Lower(name), Groups[0]) && !Matches(Lower(name), Groups[1])
    ensures GuessCategory(name) == "Dairy"
  {
    var lower := Lower(name);
    assert "ice " + "cream" == "ice cream";
    ContainsSuffixPart(lower, "ice ", "cream");
    assert DairyWords.words[4] == "cream";
    FirstMatchWins(lower, Groups, 2);
  }

  // ---------------------------------------------------------------------
  // itemsByStore
  // ---------------------------------------------------------------------

  /** `grouped` has a key for every store of `s` and lists under it the
      items of that store, in order. */
  ghost predicate GroupedBy(grouped: map<string, seq<Item>>, s: seq<Item>)
  {
    forall k :: (k in grouped <==> InStore(s, k) != []) && (k in grouped ==> grouped[k] == InStore(s, k))
  }

  /** One more item joins the group of its store. */
  lemma GroupedSnoc(grouped: map<string, seq<Item>>, s: seq<Item>, item: Item)
    requires GroupedBy(grouped, s)
    ensures var k := StoreKey(item);
            GroupedBy(grouped[k := (if k in grouped then grouped[k] else []) + [item]], s + [item])
  {
    var k := StoreKey(item);
    var g := grouped[k := (if k in grouped then grouped[k] else []) + [item]];
    forall j ensures (j in g <==> InStore(s + [item], j) != []) && (j in g ==> g[j] == InStore(s + [item], j)) {
      FilterSnoc(s, item, (x: Item) => StoreKey(x) == j);
      if j == k {
        assert InStore(s + [item], j) == InStore(s, j) + [item];
        assert k !in grouped ==> InStore(s, j) == [];
      } else {
        assert InStore(s + [item], j) == InStore(s, j);
      }
    }
  }

  /** The grouping loop over the needed items. */
  method ItemsByStore(items: seq<Item>) returns (grouped: map<string, seq<Item>>)
    ensures GroupedBy(grouped, NeededItems(items))
  {
    var needed := NeededItems(items);
    grouped := map[];
    for i := 0 to |needed|
      invariant GroupedBy(grouped, needed[..i])
    {
      var item := needed[i];
      var store := StoreKey(item);
      assert needed[..i + 1] == needed[..i] + [item];
      GroupedSnoc(grouped, needed[..i], item);
      var group := if store in grouped then grouped[store] else [];
      grouped := grouped[store := group + [item]];
    }
    assert needed[..|needed|] == needed;
  }

  /** Every needed item is listed under its own store and under no other. */
  lemma GroupsPartitionNeeded(items: seq<Item>, grouped: map<string, seq<Item>>, t: nat, k: string)
    requires GroupedBy(grouped, NeededItems(items)) && t < |NeededItems(items)|
    ensures StoreKey(NeededItems(items)[t]) in grouped
    ensures NeededItems(items)[t] in grouped[StoreKey(NeededItems(items)[t])]
    ensures k in grouped && k != StoreKey(NeededItems(items)[t]) ==> NeededItems(items)[t] !in grouped[k]
  {
  }

  // ---------------------------------------------------------------------
  // storeNames
  // ---------------------------------------------------------------------

  /** Every store offered for clearing is a group of the store view, and back. */
  lemma StoreNamesAreGroups(items: seq<Item>, grouped: map<string, seq<Item>>, k: string)
    requires GroupedBy(grouped, NeededItems(items))
    ensures k in Dedup(NeededStores(items)) <==> k in grouped
    ensures k in grouped ==> grouped[k] == InStore(NeededItems(items), k)
  {
    StoreNameHasItems(items, k);
  }

  // ---------------------------------------------------------------------
  // missingEssentials
  // ---------------------------------------------------------------------

  /** The essentials from the database when there are any, else the
      built-in list, without those already on the needed list. */
  function MissingEssentials(needed: seq<Item>, fromDb: seq<string>): (r: seq<string>)
    ensures var list := if |fromDb| > 0 then fromDb else Essentials;
            && (forall t :: 0 <= t < |r| ==> r[t] in list && !OnList(needed, r[t]))
            && (forall t :: 0 <= t < |list| && !OnList(needed, list[t]) ==> list[t] in r)
  {
    var list := if |fromDb| > 0 then fromDb else Essentials;
    Filter(list, (e: string) => !OnList(needed, e))
  }

  // ---------------------------------------------------------------------
  // frequentItems and frequentStores
  // ---------------------------------------------------------------------

  /** A buy-again record as stored; a null store is "", a null count 0. */
  datatype BuyAgainRow = BuyAgainRow(name: string, store: string, purchaseCount: int)

  /** `purchaseCount || 1`. */
  function Weight(b: BuyAgainRow): int
  {
    if b.purchaseCount == 0 then 1 else b.purchaseCount
  }

  /** The comparator `(a, b) => (b.purchaseCount || 1) - (a.purchaseCount || 1)`. */
  predicate Heavier(a: BuyAgainRow, b: BuyAgainRow) { Weight(a) > Weight(b) }

  lemma HeavierIsStrictWeak()
    ensures StrictWeak(Heavier)
  {
  }

  /** The records frequentItems keeps: by weight, heaviest first, at most 15. */
  function RankedBuyAgain(rows: seq<BuyAgainRow>): (r: seq<BuyAgainRow>)
    ensures |r| <= 15
  {
    Take(SortWith(rows, Heavier), 15)
  }

  /** The kept records come heaviest first ... */
  lemma RankedBuyAgainSorted(rows: seq<BuyAgainRow>)
    ensures var r := RankedBuyAgain(rows);
            forall i, j :: 0 <= i < j < |r| ==> Weight(r[i]) >= Weight(r[j])
  {
    HeavierIsStrictWeak();
    SortWithSorted(rows, Heavier);
  }

  /** ... and no record left out is heavier than a kept one. */
  lemma RankedBuyAgainMaximal(rows: seq<BuyAgainRow>, kept: BuyAgainRow, dropped: BuyAgainRow)
    requires kept in RankedBuyAgain(rows) && dropped in rows && dropped !in RankedBuyAgain(rows)
    ensures Weight(kept) >= Weight(dropped)
  {
    HeavierIsStrictWeak();
    TopIsMaximal(rows, Heavier, 15, kept, dropped);
  }

  function SuggestionOf(b: BuyAgainRow): (s: Suggestion)
    ensures s.name == b.name && s.store != []
  {
    Suggestion(b.name, if b.store == [] then "Other" else b.store)
  }

  function FrequentItems(rows: seq<BuyAgainRow>): (r: seq<Suggestion>)
    ensures |r| == |RankedBuyAgain(rows)| <= 15
    ensures forall t :: 0 <= t < |r| ==> r[t] == SuggestionOf(RankedBuyAgain(rows)[t])
  {
    Map(RankedBuyAgain(rows), SuggestionOf)
  }

  /** The store records from the database, first 15, when there are any;
      otherwise the stores counted over the items. */
  method FrequentStores(items: seq<Item>, storesFromDb: seq<string>) returns (stores: seq<string>)
    ensures |storesFromDb| > 0 ==> stores == Take(storesFromDb, 15)
    ensures |storesFromDb| == 0 ==> stores == TopStores(items)
  {
    if |storesFromDb| > 0 {
      return Take(storesFromDb, 15);
    }
    stores := FrequentStoresOf(items);
  }

  // ---------------------------------------------------------------------
  // Quick add and suggestions
  // ---------------------------------------------------------------------

  datatype QuickAdd =
    | Ignored                 // blank input or no family: nothing happens
    | Invalid                 // the "Please enter at least an item name." toast
    | Create(item: NewItem)

  /** handleQuickAdd: what the quick-add button does with the input. */
  function HandleQuickAdd(input: string, familyId: Option<string>): (r: QuickAdd)
    ensures r.Ignored? <==> JsTrim(input) == [] || familyId.None? || familyId.value == []
  {
    if JsTrim(input) == [] || familyId.None? || familyId.value == [] then Ignored
    else
      var parsed := ParseQuickInput(input).value;
      if parsed.name == [] then Invalid
      else Create(NewItem(parsed.name, if parsed.quantity == [] then None else Some(parsed.quantity),
                          if parsed.store == [] then "Other" else parsed.store,
                          GuessCategory(parsed.name), "NEEDED"))
  }

  /** A created item is NEEDED, has a single-spaced name, a store, a listed
      category, and a quantity only when one was typed. */
  lemma QuickAddCreates(input: string, familyId: Option<string>)
    requires HandleQuickAdd(input, familyId).Create?
    ensures var it := HandleQuickAdd(input, familyId).item;
            && it.status == "NEEDED" && it.name != [] && SingleSpaced(it.name)
            && it.store != [] && it.category in Categories
            && (it.quantity.Some? ==> it.quantity.value != [] && it.quantity.value == ParseQuickInput(input).value.quantity)
  {
    NameIsClean(input);
    GuessCategoryListed(ParseQuickInput(input).value.name);
  }

  /** addSuggestion: a needed item with the guessed category at the given store. */
  function AddSuggestion(name: string, store: string, familyId: Option<string>): (r: Option<NewItem>)
    ensures r.Some? <==> familyId.Some? && familyId.value != []
    ensures r.Some? ==> r.value.name == name && r.value.store == store && r.value.status == "NEEDED"
                        && r.value.quantity.None?
  {
    if familyId.None? || familyId.value == [] then None
    else Some(NewItem(name, None, store, GuessCategory(name), "NEEDED"))
  }

  // ---------------------------------------------------------------------
  // Removing and clearing: buy-again records against a fixed snapshot
  // ---------------------------------------------------------------------

  /** `items.find(i => i.id === id)`. */
  function FindById(items: seq<Item>, id: string): (r: Option<Item>)
    ensures r.Some? ==> r.value in items && r.value.id == id
    ensures r.None? ==> forall t :: 0 <= t < |items| ==> items[t].id != id
    decreases |items|
  {
    if items == [] then None else if items[0].id == id then Some(items[0]) else FindById(items[1..], id)
  }

  /** An existing buy-again record has the item's name, ignoring case. */
  predicate Remembered(snapshot: seq<BuyAgainRow>, i: Item)
  {
    exists t :: 0 <= t < |snapshot| && Lower(snapshot[t].name) == Lower(i.name)
  }

  /** The item earns a buy-again record: bought before, and not remembered. */
  predicate Earns(snapshot: seq<BuyAgainRow>, i: Item)
  {
    i.purchaseCount > 0 && !Remembered(snapshot, i)
  }

  /** `x || undefined` on a string field. */
  function Defined(s: string): Option<string> { if s == [] then None else Some(s) }

  function BuyAgainOf(i: Item): BuyAgain
  {
    BuyAgain(i.name, Defined(i.category), Defined(i.store), Defined(i.quantity), i.purchaseCount)
  }

  /** saveToBuyAgainAndDelete: the buy-again record when earned, then the delete. */
  function SaveAndDelete(snapshot: seq<BuyAgainRow>, i: Item): (r: seq<Request>)
    ensures |r| >= 1 && r[|r| - 1] == DeleteItem(i.id)
    ensures |r| == 2 <==> Earns(snapshot, i)
    ensures |r| == 2 ==> r[0] == CreateBuyAgain(BuyAgainOf(i))
  {
    (if Earns(snapshot, i) then [CreateBuyAgain(BuyAgainOf(i))] else []) + [DeleteItem(i.id)]
  }

  /** The requests of a clear action over `list`, element by element. */
  function ClearRequests(snapshot: seq<BuyAgainRow>, list: seq<Item>): seq<Request>
    decreases |list|
  {
    if list == [] then []
    else ClearRequests(snapshot, list[..|list| - 1]) + SaveAndDelete(snapshot, list[|list| - 1])
  }

  /** The ids a request sequence deletes, in order. */
  function DeletedIds(reqs: seq<Request>): seq<string>
    decreases |reqs|
  {
    if reqs == [] then []
    else DeletedIds(reqs[..|reqs| - 1]) + (if reqs[|reqs| - 1].DeleteItem? then [reqs[|reqs| - 1].id] else [])
  }

  /** The buy-again records a request sequence creates, in order. */
  function CreatedRecords(reqs: seq<Request>): seq<BuyAgain>
    decreases |reqs|
  {
    if reqs == [] then []
    else CreatedRecords(reqs[..|reqs| - 1])
         + (if reqs[|reqs| - 1].CreateBuyAgain? then [reqs[|reqs| - 1].entry] else [])
  }

  lemma {:induction false} DeletedIdsAppend(a: seq<Request>, b: seq<Request>)
    ensures DeletedIds(a + b) == DeletedIds(a) + DeletedIds(b)
    decreases |b|
  {
    if b == [] {
      assert a + b == a;
    } else {
      DeletedIdsAppend(a, b[..|b| - 1]);
      assert (a + b)[..|a + b| - 1] == a + b[..|b| - 1];
    }
  }

  lemma {:induction false} CreatedRecordsAppend(a: seq<Request>, b: seq<Request>)
    ensures CreatedRecords(a + b) == CreatedRecords(a) + CreatedRecords(b)
    decreases |b|
  {
    if b == [] {
      assert a + b == a;
    } else {
      CreatedRecordsAppend(a, b[..|b| - 1]);
      assert (a + b)[..|a + b| - 1] == a + b[..|b| - 1];
    }
  }

  /** The ids of the items, in order. */
  function Ids(list: seq<Item>): seq<string>
    decreases |list|
  {
    if list == [] then [] else Ids(list[..|list| - 1]) + [list[|list| - 1].id]
  }

  /** The buy-again records the earning items get, in order. */
  function Earned(snapshot: seq<BuyAgainRow>, list: seq<Item>): seq<BuyAgain>
    decreases |list|
  {
    if list == [] then []
    else
      var last := list[|list| - 1];
      Earned(snapshot, list[..|list| - 1]) + (if Earns(snapshot, last) then [BuyAgainOf(last)] else [])
  }

  /** A clear action deletes every listed item, once each, in order ... */
  lemma {:induction false} ClearDeletesEach(snapshot: seq<BuyAgainRow>, list: seq<Item>)
    ensures DeletedIds(ClearRequests(snapshot, list)) == Ids(list)
    ensures CreatedRecords(ClearRequests(snapshot, list)) == Earned(snapshot, list)
    decreases |list|
  {
    if list != [] {
      var init := list[..|list| - 1];
      var last := list[|list| - 1];
      var before := ClearRequests(snapshot, init);
      var sd := SaveAndDelete(snapshot, last);
      ClearDeletesEach(snapshot, init);
      assert ClearRequests(snapshot, list) == before + sd;
      DeletedIdsAppend(before, sd);
      CreatedRecordsAppend(before, sd);
      SaveAndDeleteEffects(snapshot, last);
      assert Ids(list) == Ids(init) + [last.id];
      assert Earned(snapshot, list) == Earned(snapshot, init) + (if Earns(snapshot, last) then [BuyAgainOf(last)] else []);
    }
  }

  /** One item's requests delete it and create its record when it earns one. */
  lemma SaveAndDeleteEffects(snapshot: seq<BuyAgainRow>, last: Item)
    ensures DeletedIds(SaveAndDelete(snapshot, last)) == [last.id]
    ensures CreatedRecords(SaveAndDelete(snapshot, last)) == (if Earns(snapshot, last) then [BuyAgainOf(last)] else [])
  {
    var sd := SaveAndDelete(snapshot, last);
    if Earns(snapshot, last) {
      assert sd[..1] == [CreateBuyAgain(BuyAgainOf(last))];
      assert sd == [CreateBuyAgain(BuyAgainOf(last))] + [DeleteItem(last.id)];
      DeletedIdsAppend([CreateBuyAgain(BuyAgainOf(last))], [DeleteItem(last.id)]);
      CreatedRecordsAppend([CreateBuyAgain(BuyAgainOf(last))], [DeleteItem(last.id)]);
    } else {
      assert sd == [DeleteItem(last.id)];
    }
  }

  /** ... and the snapshot is not refreshed in between: two listed items with
      one name, neither remembered, both get a buy-again record. */
  lemma ClearDuplicatesRecords(snapshot: seq<BuyAgainRow>, a: Item, b: Item)
    requires Earns(snapshot, a) && Earns(snapshot, b) && a.name == b.name
    ensures ClearRequests(snapshot, [a, b])
            == [CreateBuyAgain(BuyAgainOf(a)), DeleteItem(a.id), CreateBuyAgain(BuyAgainOf(b)), DeleteItem(b.id)]
  {
    var sa := SaveAndDelete(snapshot, a);
    var sb := SaveAndDelete(snapshot, b);
    assert sa == [CreateBuyAgain(BuyAgainOf(a)), DeleteItem(a.id)];
    assert sb == [CreateBuyAgain(BuyAgainOf(b)), DeleteItem(b.id)];
    assert [a, b][..1] == [a];
    assert [a][..0] == [];
    assert ClearRequests(snapshot, [a]) == sa;
    assert ClearRequests(snapshot, [a, b]) == sa + sb;
  }

  /** The web grocery page: the fetched items and buy-again records, and the
      requests its buttons have sent. */
  class Page {
    var items: seq<Item>
    var buyAgain: seq<BuyAgainRow>
    var requests: seq<Request>

    constructor (items: seq<Item>, buyAgain: seq<BuyAgainRow>)
      ensures this.items == items && this.buyAgain == buyAgain && requests == []
    {
      this.items := items;
      this.buyAgain := buyAgain;
      requests := [];
    }

    /** moveToGot: GOT, with the stored count (`|| 0`) plus one. */
    method MoveToGot(id: string)
      modifies this
      ensures items == old(items) && buyAgain == old(buyAgain)
      ensures var item := FindById(items, id);
              requests == old(requests)
                          + [UpdateItem(id, Patch("GOT", Some((if item.Some? then item.value.purchaseCount else 0) + 1)))]
    {
      var item := FindById(items, id);
      var currentCount := if item.Some? then item.value.purchaseCount else 0;
      requests := requests + [UpdateItem(id, Patch("GOT", Some(currentCount + 1)))];
    }

    /** moveToNeeded: NEEDED, the count untouched. */
    method MoveToNeeded(id: string)
      modifies this
      ensures items == old(items) && buyAgain == old(buyAgain)
      ensures requests == old(requests) + [UpdateItem(id, Patch("NEEDED", None))]
    {
      requests := requests + [UpdateItem(id, Patch("NEEDED", None))];
    }

    /** removeItem: the buy-again record when earned, and the delete in every case. */
    method RemoveItem(id: string)
      modifies this
      ensures items == old(items) && buyAgain == old(buyAgain)
      ensures var item := FindById(items, id);
              requests == old(requests)
                          + (if item.Some? then SaveAndDelete(buyAgain, item.value)[..|SaveAndDelete(buyAgain, item.value)| - 1] else [])
                          + [DeleteItem(id)]
    {
      var item := FindById(items, id);
      if item.Some? && item.value.purchaseCount > 0 {
        if !Remembered(buyAgain, item.value) {
          requests := requests + [CreateBuyAgain(BuyAgainOf(item.value))];
        }
      }
      requests := requests + [DeleteItem(id)];
    }

    /** The forEach of the clear actions. */
    method SaveAllAndDelete(list: seq<Item>)
      modifies this
      ensures items == old(items) && buyAgain == old(buyAgain)
      ensures requests == old(requests) + ClearRequests(buyAgain, list)
    {
      for i := 0 to |list|
        invariant items == old(items) && buyAgain == old(buyAgain)
        invariant requests == old(requests) + ClearRequests(buyAgain, list[..i])
      {
        assert list[..i + 1][..i] == list[..i];
        requests := requests + SaveAndDelete(buyAgain, list[i]);
      }
      assert list[..|list|] == list;
    }

    method ClearAllItems()
      modifies this
      ensures items == old(items) && buyAgain == old(buyAgain)
      ensures requests == old(requests) + ClearRequests(buyAgain, ActiveItems(items))
    {
      SaveAllAndDelete(ActiveItems(items));
    }

    method ClearAllGotIt()
      modifies this
      ensures items == old(items) && buyAgain == old(buyAgain)
      ensures requests == old(requests) + ClearRequests(buyAgain, GotItems(items))
    {
      SaveAllAndDelete(GotItems(items));
    }

    method ClearAllNeed()
      modifies this
      ensures items == old(items) && buyAgain == old(buyAgain)
      ensures requests == old(requests) + ClearRequests(buyAgain, NeededItems(items))
    {
      SaveAllAndDelete(NeededItems(items));
    }

    /** clearByStore: only the needed items listed under that store. */
    method ClearByStore(store: string)
      modifies this
      ensures items == old(items) && buyAgain == old(buyAgain)
      ensures requests == old(requests) + ClearRequests(buyAgain, InStore(NeededItems(items), store))
    {
      SaveAllAndDelete(InStore(NeededItems(items), store));
    }
  }
}

/**
 * The mobile groceries screen: its own four-group category guess, quick add,
 * the frequent items kept in a record of best purchases, the buy-again
 * suggestions, the store names of the clear menu, and the clear actions,
 * which archive items instead of deleting them.
 */
module GroceryScreen {
  import opened Wrappers
  import opened Text
  import opened Seqs
  import opened Sorting
  import opened Records
  import opened QuickInput
  import opened GroceryItems

  const Essentials: seq<string> :=
    ["Milk", "Eggs", "Bread", "Rice", "Butter", "Cheese", "Chicken", "Onions", "Tomatoes", "Bananas"]

  const FruitWords := Group("Fruits", ["apple", "banana", "orange", "grape", "mango"])
  const VegetableWords := Group("Vegetables", ["carrot", "potato", "onion", "tomato", "lettuce"])
  const DairyWords := Group("Dairy", ["milk", "cheese", "yogurt", "butter", "cream"])
  const MeatWords := Group("Meat", ["chicken", "beef", "pork", "fish"])

  /** The keyword groups of the screen's guessCategory, in the order they are tried. */
  const Groups: seq<Group> := [FruitWords, VegetableWords, DairyWords, MeatWords]

  function GuessCategory(name: string): string
  {
    FirstMatch(Lower(name), Groups)
  }

  /** The screen only ever guesses one of five categories. */
  lemma GuessCategoryRange(name: string)
    ensures var r := GuessCategory(name);
            r == "Fruits" || r == "Vegetables" || r == "Dairy" || r == "Meat" || r == "Other"
  {
  }

  /** 'Other' exactly when no keyword of the four groups occurs in the lower-cased name. */
  lemma GuessCategoryOther(name: string)
    ensures GuessCategory(name) == "Other" <==> forall j :: 0 <= j < |Groups| ==> !Matches(Lower(name), Groups[j])
  {
    FirstMatchOther(Lower(name), Groups);
  }

  /** handleQuickAdd: the item to create, or None when the input is blank or
      leaves no name. */
  function HandleQuickAdd(input: string): (r: Option<NewItem>)
    ensures r.None? <==> ParseQuickInput(input).None? || ParseQuickInput(input).value.name == []
  {
    match ParseQuickInput(input)
    case None => None
    case Some(parsed) =>
      if parsed.name == [] then None
      else Some(NewItem(parsed.name, if parsed.quantity == [] then None else Some(parsed.quantity),
                        if parsed.store == [] then "Other" else parsed.store,
                        GuessCategory(parsed.name), "NEEDED"))
  }

  /** A created item is NEEDED, has a single-spaced name, a store, and a
      quantity only when one was typed. */
  lemma QuickAddCreates(input: string)
    requires HandleQuickAdd(input).Some?
    ensures var it := HandleQuickAdd(input).value;
            && it.status == "NEEDED" && it.name != [] && SingleSpaced(it.name) && it.store != []
            && (it.quantity.Some? ==> it.quantity.value != [] && it.quantity.value == ParseQuickInput(input).value.quantity)
  {
    NameIsClean(input);
  }

  /** addSuggestion: a needed item with the guessed category, at the given store,
      without a quantity. */
  function AddSuggestion(name: string, store: string): (r: NewItem)
    ensures r.name == name && r.store == store && r.status == "NEEDED" && r.quantity.None?
    ensures r.category == GuessCategory(name)
  {
    NewItem(name, None, store, GuessCategory(name), "NEEDED")
  }

  /** missingEssentials: the built-in essentials not yet on the needed list. */
  function MissingEssentials(needed: seq<Item>): (r: seq<string>)
    ensures forall t :: 0 <= t < |r| ==> r[t] in Essentials && !OnList(needed, r[t])
    ensures forall t :: 0 <= t < |Essentials| && !OnList(needed, Essentials[t]) ==> Essentials[t] in r
  {
    Filter(Essentials, (e: string) => !OnList(needed, e))
  }

  // ---------------------------------------------------------------------
  // frequentItems: the best purchase per name
  // ---------------------------------------------------------------------

  /** What the record holds for a name: the count and the store to suggest. */
  datatype Stat = Stat(count: int, store: string)

  /** `item.store || 'Other'`. */
  function StoreOrOther(i: Item): (s: string)
    ensures s != []
  {
    if i.store == [] then "Other" else i.store
  }

  /** The item replaces its name's entry: a positive count, higher than the one kept. */
  predicate Improves(c: Record<Stat>, i: Item)
  {
    i.purchaseCount > 0 && (Get(c, i.name).None? || i.purchaseCount > Get(c, i.name).value.count)
  }

  /** One step of the forEach over the items. */
  function Offer(c: Record<Stat>, i: Item): Record<Stat>
  {
    if Improves(c, i) then Put(c, i.name, Stat(i.purchaseCount, StoreOrOther(i))) else c
  }

  /** The record after the forEach. */
  function BestRecord(items: seq<Item>): Record<Stat>
    decreases |items|
  {
    if items == [] then [] else Offer(BestRecord(items[..|items| - 1]), items[|items| - 1])
  }

  /** Some item of that name was bought at least once. */
  predicate Bought(items: seq<Item>, name: string)
  {
    exists t :: 0 <= t < |items| && items[t].name == name && items[t].purchaseCount > 0
  }

  /** Item t is the first item of that name with the highest count, a positive one. */
  predicate FirstBest(items: seq<Item>, name: string, t: int)
  {
    && 0 <= t < |items| && items[t].name == name && items[t].purchaseCount > 0
    && (forall u :: 0 <= u < |items| && items[u].name == name ==> items[u].purchaseCount <= items[t].purchaseCount)
    && (forall u :: 0 <= u < t && items[u].name == name ==> items[u].purchaseCount < items[t].purchaseCount)
  }

  /** The names with a positive count, in item order. */
  function BoughtNames(items: seq<Item>): seq<string>
    decreases |items|
  {
    if items == [] then []
    else
      var last := items[|items| - 1];
      BoughtNames(items[..|items| - 1]) + (if last.purchaseCount > 0 then [last.name] else [])
  }

  /** The record's entry for `name` after one more item. */
  lemma OfferGet(c: Record<Stat>, i: Item, name: string)
    ensures Get(Offer(c, i), name)
            == if Improves(c, i) && i.name == name then Some(Stat(i.purchaseCount, StoreOrOther(i))) else Get(c, name)
  {
    if Improves(c, i) {
      GetPut(c, i.name, Stat(i.purchaseCount, StoreOrOther(i)), name);
    }
  }

  /** An item of another name changes neither the question nor its answer. */
  lemma FirstBestOtherName(items: seq<Item>, name: string, t: int)
    requires items != [] && items[|items| - 1].name != name
    ensures Bought(items, name) <==> Bought(items[..|items| - 1], name)
    ensures FirstBest(items, name, t) <==> FirstBest(items[..|items| - 1], name, t)
  {
    var init := items[..|items| - 1];
    if Bought(items, name) {
      var u :| 0 <= u < |items| && items[u].name == name && items[u].purchaseCount > 0;
      assert init[u] == items[u];
    }
    if Bought(init, name) {
      var u :| 0 <= u < |init| && init[u].name == name && init[u].purchaseCount > 0;
      assert items[u] == init[u];
    }
  }

  /** An item of that name that does not improve on the kept best leaves its witness the best. */
  lemma FirstBestNotImproved(items: seq<Item>, name: string, t: int)
    requires items != [] && items[|items| - 1].name == name
    requires FirstBest(items[..|items| - 1], name, t)
    requires items[|items| - 1].purchaseCount <= items[t].purchaseCount
    ensures FirstBest(items, name, t)
  {
  }

  /** An item that beats every earlier item of its name is the new best. */
  lemma FirstBestImproved(items: seq<Item>, name: string)
    requires items != [] && items[|items| - 1].name == name && items[|items| - 1].purchaseCount > 0
    requires forall u :: 0 <= u < |items| - 1 && items[u].name == name ==> items[u].purchaseCount < items[|items| - 1].purchaseCount
    ensures FirstBest(items, name, |items| - 1)
  {
  }

  /** A last item that was never bought leaves the purchase to an earlier one. */
  lemma BoughtBefore(items: seq<Item>, name: string)
    requires Bought(items, name) && items[|items| - 1].purchaseCount <= 0
    ensures Bought(items[..|items| - 1], name)
  {
    var u :| 0 <= u < |items| && items[u].name == name && items[u].purchaseCount > 0;
    assert u < |items| - 1;
    assert items[..|items| - 1][u] == items[u];
  }

  /** The record keeps an entry for a name exactly when it was bought ... */
  lemma {:induction false} BestRecordDefined(items: seq<Item>, name: string)
    ensures Get(BestRecord(items), name).Some? <==> Bought(items, name)
    decreases |items|
  {
    if items != [] {
      var init := items[..|items| - 1];
      var last := items[|items| - 1];
      BestRecordDefined(init, name);
      OfferGet(BestRecord(init), last, name);
      if last.name != name {
        FirstBestOtherName(items, name, 0);
      } else if last.purchaseCount > 0 {
        assert Bought(items, name);
      } else if Bought(items, name) {
        var u :| 0 <= u < |items| && items[u].name == name && items[u].purchaseCount > 0;
        assert init[u] == items[u];
      }
    }
  }

  /** ... and that entry is the count and store of the first item of that
      name with the highest count. */
  lemma {:induction false} BestRecordIsBest(items: seq<Item>, name: string) returns (t: nat)
    requires Bought(items, name)
    ensures FirstBest(items, name, t)
    ensures Get(BestRecord(items), name) == Some(Stat(items[t].purchaseCount, StoreOrOther(items[t])))
    decreases |items|
  {
    var init := items[..|items| - 1];
    var last := items[|items| - 1];
    var c := BestRecord(init);
    OfferGet(c, last, name);
    BestRecordDefined(init, name);
    if last.name != name {
      FirstBestOtherName(items, name, 0);
      t := BestRecordIsBest(init, name);
      FirstBestOtherName(items, name, t);
    } else if Improves(c, last) {
      t := |items| - 1;
      if Bought(init, name) {
        var w := BestRecordIsBest(init, name);
        assert forall u :: 0 <= u < |items| - 1 && items[u].name == name ==> items[u] == init[u];
      } else {
        assert forall u :: 0 <= u < |items| - 1 && items[u].name == name ==> items[u] == init[u];
      }
      FirstBestImproved(items, name);
    } else {
      if last.purchaseCount <= 0 {
        BoughtBefore(items, name);
      }
      t := BestRecordIsBest(init, name);
      assert items[t] == init[t];
      FirstBestNotImproved(items, name, t);
    }
  }

  /** The record lists the bought names once each, in order of their first purchase. */
  lemma {:induction false} BestRecordKeys(items: seq<Item>)
    ensures Keys(BestRecord(items)) == Dedup(BoughtNames(items))
    decreases |items|
  {
    if items != [] {
      var init := items[..|items| - 1];
      var last := items[|items| - 1];
      var c := BestRecord(init);
      var names := BoughtNames(init);
      BestRecordKeys(init);
      if last.purchaseCount > 0 {
        assert BoughtNames(items) == names + [last.name];
        DedupSnoc(names, last.name);
        GetDefined(c, last.name);
        if Improves(c, last) {
          KeysPut(c, last.name, Stat(last.purchaseCount, StoreOrOther(last)));
        }
        assert last.name in Keys(c) <==> last.name in names;
      } else {
        assert BoughtNames(items) == names;
      }
    }
  }

  /** The comparator `(a, b) => b[1].count - a[1].count`. */
  predicate Busier(a: (string, Stat), b: (string, Stat)) { a.1.count > b.1.count }

  lemma BusierIsStrictWeak()
    ensures StrictWeak(Busier)
  {
  }

  /** The entries frequentItems keeps: by count, highest first, at most 15. */
  function RankedItems(items: seq<Item>): (r: Record<Stat>)
    ensures |r| <= 15
  {
    Take(SortWith(BestRecord(items), Busier), 15)
  }

  function SuggestionOfEntry(e: (string, Stat)): Suggestion
  {
    Suggestion(e.0, e.1.store)
  }

  /** frequentItems: the kept entries as name and store. */
  function FrequentItems(items: seq<Item>): (r: seq<Suggestion>)
    ensures |r| <= 15
  {
    Map(RankedItems(items), SuggestionOfEntry)
  }

  /** Every frequent item was bought, and is suggested at the store of its best purchase. */
  lemma FrequentItemIsBest(items: seq<Item>, k: nat) returns (t: nat)
    requires k < |FrequentItems(items)|
    ensures FirstBest(items, FrequentItems(items)[k].name, t)
    ensures FrequentItems(items)[k].store == StoreOrOther(items[t])
  {
    var c := BestRecord(items);
    var sorted := SortWith(c, Busier);
    var e := sorted[k];
    BestRecordKeys(items);
    PermutedEntryIsGet(c, sorted, k);
    BestRecordDefined(items, e.0);
    t := BestRecordIsBest(items, e.0);
  }

  /** A record entry that sorts after the kept ones has no higher count. */
  lemma TopEntryOutranks(items: seq<Item>, k: nat, other: string)
    requires k < |RankedItems(items)|
    requires Get(BestRecord(items), other).Some?
    requires forall j :: 0 <= j < |RankedItems(items)| ==> RankedItems(items)[j].0 != other
    ensures Get(BestRecord(items), RankedItems(items)[k].0).Some?
    ensures Get(BestRecord(items), other).value.count <= Get(BestRecord(items), RankedItems(items)[k].0).value.count
  {
    var c := BestRecord(items);
    var sorted := SortWith(c, Busier);
    var top := RankedItems(items);
    BusierIsStrictWeak();
    SortWithSorted(c, Busier);
    BestRecordKeys(items);
    GetDefined(c, other);
    var j := PermutedKeyAt(c, sorted, other);
    assert forall i :: 0 <= i < |top| ==> top[i] == sorted[i];
    assert j >= |top|;
    assert !Busier(sorted[j], sorted[k]);
    PermutedEntryIsGet(c, sorted, k);
    PermutedEntryIsGet(c, sorted, j);
  }

  /** No bought name left off the list was bought in a larger amount than a listed one. */
  lemma FrequentItemsAreMostBought(items: seq<Item>, k: nat, other: string) returns (t: nat)
    requires k < |FrequentItems(items)|
    requires Bought(items, other)
    requires forall j :: 0 <= j < |FrequentItems(items)| ==> FrequentItems(items)[j].name != other
    ensures FirstBest(items, FrequentItems(items)[k].name, t)
    ensures forall v :: 0 <= v < |items| && items[v].name == other ==> items[v].purchaseCount <= items[t].purchaseCount
  {
    var top := RankedItems(items);
    assert forall j :: 0 <= j < |top| ==> FrequentItems(items)[j].name == top[j].0;
    BestRecordDefined(items, other);
    TopEntryOutranks(items, k, other);
    BestRecordDefined(items, top[k].0);
    t := BestRecordIsBest(items, top[k].0);
    var w := BestRecordIsBest(items, other);
  }

  /** One Offer in the loop, on the map and key order that hold the record. */
  lemma MirrorsOffer(m: map<string, Stat>, order: seq<string>, c: Record<Stat>, i: Item)
    requires Mirrors(m, order, c)
    ensures Improves(c, i) <==> i.purchaseCount > 0 && (i.name !in m || i.purchaseCount > m[i.name].count)
    ensures Improves(c, i) ==>
              Mirrors(m[i.name := Stat(i.purchaseCount, StoreOrOther(i))],
                      if i.name in m then order else order + [i.name], Offer(c, i))
  {
    MirrorsPut(m, order, c, i.name, Stat(i.purchaseCount, StoreOrOther(i)));
  }

  lemma BestRecordSnoc(items: seq<Item>, i: nat)
    requires i < |items|
    ensures BestRecord(items[..i + 1]) == Offer(BestRecord(items[..i]), items[i])
  {
    assert items[..i + 1][..i] == items[..i];
  }

  /** frequentItems' forEach: the record as a map and its insertion order. */
  method BestInto(items: seq<Item>) returns (itemData: map<string, Stat>, order: seq<string>)
    ensures Mirrors(itemData, order, BestRecord(items))
  {
    itemData := map[];
    order := [];
    for i := 0 to |items|
      invariant Mirrors(itemData, order, BestRecord(items[..i]))
    {
      var item := items[i];
      var count := item.purchaseCount;
      BestRecordSnoc(items, i);
      MirrorsOffer(itemData, order, BestRecord(items[..i]), item);
      if count > 0 && (item.name !in itemData || count > itemData[item.name].count) {
        if item.name !in itemData {
          order := order + [item.name];
        }
        itemData := itemData[item.name := Stat(count, StoreOrOther(item))];
      }
    }
    assert items[..|items|] == items;
  }

  /** frequentItems computed: the record's entries, sorted, 15 kept, as suggestions. */
  method FrequentItemsOf(items: seq<Item>) returns (suggestions: seq<Suggestion>)
    ensures suggestions == FrequentItems(items)
  {
    var itemData, order := BestInto(items);
    var entries := EntriesOf(itemData, order);
    BestRecordKeys(items);
    MirroredEntries(itemData, order, BestRecord(items), entries);
    var sorted := SortWith(entries, Busier);
    suggestions := Map(Take(sorted, 15), SuggestionOfEntry);
  }

  /** buyAgainItems: the frequent items whose name, ignoring case, is not needed. */
  function BuyAgainItems(items: seq<Item>): (r: seq<Suggestion>)
    ensures forall t :: 0 <= t < |r| ==> r[t] in FrequentItems(items)
    ensures forall t, u :: 0 <= t < |r| && 0 <= u < |NeededItems(items)| ==> Lower(NeededItems(items)[u].name) != Lower(r[t].name)
    ensures forall t :: 0 <= t < |FrequentItems(items)| && !NeededName(items, FrequentItems(items)[t].name)
                        ==> FrequentItems(items)[t] in r
  {
    Filter(FrequentItems(items), (f: Suggestion) => !NeededName(items, f.name))
  }

  predicate NeededName(items: seq<Item>, name: string)
  {
    exists u :: 0 <= u < |NeededItems(items)| && Lower(NeededItems(items)[u].name) == Lower(name)
  }

  // ---------------------------------------------------------------------
  // The buttons: updates sent one after another
  // ---------------------------------------------------------------------

  const Archive := Patch("ARCHIVED", None)

  /** The update requests of a clear action over `list`, in order. */
  function ArchiveRequests(list: seq<Item>): (r: seq<Request>)
    ensures |r| == |list|
  {
    Map(list, (i: Item) => UpdateItem(i.id, Archive))
  }

  /** Some listed item has that id. */
  predicate ListsId(list: seq<Item>, id: string)
  {
    exists j :: 0 <= j < |list| && list[j].id == id
  }

  /** Serving the archive requests of `list` archives exactly the stored
      items whose id is listed, and changes nothing else. */
  lemma {:induction false} ArchiveServed(items: seq<Item>, list: seq<Item>)
    ensures |Served(items, ArchiveRequests(list))| == |items|
    ensures forall k :: 0 <= k < |items| ==>
              Served(items, ArchiveRequests(list))[k]
              == if ListsId(list, items[k].id) then items[k].(status := "ARCHIVED") else items[k]
    decreases |list|
  {
    if list != [] {
      var init := list[..|list| - 1];
      var reqs := ArchiveRequests(list);
      assert reqs[..|reqs| - 1] == ArchiveRequests(init);
      ArchiveServed(items, init);
      forall k | 0 <= k < |items|
        ensures ListsId(list, items[k].id) <==> ListsId(init, items[k].id) || list[|list| - 1].id == items[k].id
      {
        if ListsId(list, items[k].id) {
          var j :| 0 <= j < |list| && list[j].id == items[k].id;
          if j < |init| {
            assert init[j] == list[j];
          }
        }
        if ListsId(init, items[k].id) {
          var j :| 0 <= j < |init| && init[j].id == items[k].id;
          assert list[j] == init[j];
        }
      }
    }
  }

  /** Ids are unique among the stored items. */
  predicate DistinctIds(items: seq<Item>)
  {
    forall j, k :: 0 <= j < k < |items| ==> items[j].id != items[k].id
  }

  /** With unique ids, a list drawn from the items that holds every item
      passing `p` lists an item's id exactly when it passes `p`. */
  lemma ListsIdExactly(items: seq<Item>, list: seq<Item>, p: Item -> bool, k: nat)
    requires DistinctIds(items) && k < |items|
    requires forall j :: 0 <= j < |list| ==> list[j] in items && p(list[j])
    requires forall j :: 0 <= j < |items| && p(items[j]) ==> items[j] in list
    ensures ListsId(list, items[k].id) <==> p(items[k])
  {
    if ListsId(list, items[k].id) {
      var j :| 0 <= j < |list| && list[j].id == items[k].id;
      var u :| 0 <= u < |items| && items[u] == list[j];
      assert u == k;
    }
    if p(items[k]) {
      var j :| 0 <= j < |list| && list[j] == items[k];
    }
  }

  /** clearAllGotIt archives exactly the got items ... */
  lemma ClearGotArchivesGot(items: seq<Item>)
    requires DistinctIds(items)
    ensures var after := Served(items, ArchiveRequests(GotItems(items)));
            |after| == |items|
            && forall k :: 0 <= k < |items| ==>
                 after[k] == if IsGot(items[k]) then items[k].(status := "ARCHIVED") else items[k]
  {
    ArchiveServed(items, GotItems(items));
    forall k | 0 <= k < |items| ensures ListsId(GotItems(items), items[k].id) <==> IsGot(items[k]) {
      ListsIdExactly(items, GotItems(items), IsGot, k);
    }
  }

  /** ... clearAllNeed exactly the needed items ... */
  lemma ClearNeedArchivesNeeded(items: seq<Item>)
    requires DistinctIds(items)
    ensures var after := Served(items, ArchiveRequests(NeededItems(items)));
            |after| == |items|
            && forall k :: 0 <= k < |items| ==>
                 after[k] == if IsNeeded(items[k]) then items[k].(status := "ARCHIVED") else items[k]
  {
    ArchiveServed(items, NeededItems(items));
    forall k | 0 <= k < |items| ensures ListsId(NeededItems(items), items[k].id) <==> IsNeeded(items[k]) {
      ListsIdExactly(items, NeededItems(items), IsNeeded, k);
    }
  }

  /** ... and clearByStore exactly the needed items listed under that store. */
  lemma ClearStoreArchivesStore(items: seq<Item>, store: string)
    requires DistinctIds(items)
    ensures var after := Served(items, ArchiveRequests(InStore(NeededItems(items), store)));
            |after| == |items|
            && forall k :: 0 <= k < |items| ==>
                 after[k] == if IsNeeded(items[k]) && StoreKey(items[k]) == store
                             then items[k].(status := "ARCHIVED") else items[k]
  {
    var list := InStore(NeededItems(items), store);
    var p := (i: Item) => IsNeeded(i) && StoreKey(i) == store;
    ArchiveServed(items, list);
    forall k | 0 <= k < |items| ensures ListsId(list, items[k].id) <==> p(items[k]) {
      ListsIdExactly(items, list, p, k);
    }
  }

  /** The number of updates a clear loop gets through when the update at
      position `rejectedAt` (if any) is the first the server refuses: the
      awaited refusal throws out of the loop, so nothing after it is sent. */
  function Completed(list: seq<Item>, rejectedAt: Option<nat>): (k: nat)
    ensures k <= |list|
    ensures k == |list| <==> rejectedAt.None? || rejectedAt.value >= |list|
    ensures k < |list| ==> k == rejectedAt.value
  {
    if rejectedAt.Some? && rejectedAt.value < |list| then rejectedAt.value else |list|
  }

  /** The screen: the fetched items, the updates the server has carried out
      for its buttons, and whether the clear menu is open. */
  class Screen {
    var items: seq<Item>
    var requests: seq<Request>
    var showClearMenu: bool

    constructor (items: seq<Item>)
      ensures this.items == items && requests == [] && !showClearMenu
    {
      this.items := items;
      requests := [];
      showClearMenu := false;
    }

    /** The clear button opens the menu. */
    method OpenClearMenu()
      modifies this
      ensures items == old(items) && requests == old(requests) && showClearMenu
    {
      showClearMenu := true;
    }

    /** Cancel, the overlay and the back gesture close it. */
    method CloseClearMenu()
      modifies this
      ensures items == old(items) && requests == old(requests) && !showClearMenu
    {
      showClearMenu := false;
    }

    /** moveToGot: GOT, with the count the list shows (`|| 0`) plus one. A
        refusal is caught and logged, and nothing changes. */
    method MoveToGot(id: string, currentCount: int, refused: bool)
      modifies this
      ensures items == old(items) && showClearMenu == old(showClearMenu)
      ensures requests == if refused then old(requests) else old(requests) + [UpdateItem(id, Patch("GOT", Some(currentCount + 1)))]
    {
      if !refused {
        requests := requests + [UpdateItem(id, Patch("GOT", Some(currentCount + 1)))];
      }
    }

    /** moveToNeeded: NEEDED, the count untouched. */
    method MoveToNeeded(id: string, refused: bool)
      modifies this
      ensures items == old(items) && showClearMenu == old(showClearMenu)
      ensures requests == if refused then old(requests) else old(requests) + [UpdateItem(id, Patch("NEEDED", None))]
    {
      if !refused {
        requests := requests + [UpdateItem(id, Patch("NEEDED", None))];
      }
    }

    /** archiveItem: the row stays, marked ARCHIVED. */
    method ArchiveItem(id: string, refused: bool)
      modifies this
      ensures items == old(items) && showClearMenu == old(showClearMenu)
      ensures requests == if refused then old(requests) else old(requests) + [UpdateItem(id, Archive)]
    {
      if !refused {
        requests := requests + [UpdateItem(id, Archive)];
      }
    }

    /** The for-of loop of the clear actions, awaiting each update in turn;
        `done` is false when a refusal ended it early. */
    method ArchiveAll(list: seq<Item>, rejectedAt: Option<nat>) returns (done: bool)
      modifies this
      ensures items == old(items) && showClearMenu == old(showClearMenu)
      ensures requests == old(requests) + ArchiveRequests(list[..Completed(list, rejectedAt)])
      ensures done <==> Completed(list, rejectedAt) == |list|
    {
      var i := 0;
      while i < |list| && !(rejectedAt.Some? && rejectedAt.value == i)
        invariant 0 <= i <= Completed(list, rejectedAt)
        invariant items == old(items) && showClearMenu == old(showClearMenu)
        invariant requests == old(requests) + ArchiveRequests(list[..i])
      {
        assert ArchiveRequests(list[..i + 1]) == ArchiveRequests(list[..i]) + [UpdateItem(list[i].id, Archive)];
        requests := requests + [UpdateItem(list[i].id, Archive)];
        i := i + 1;
      }
      done := i == |list|;
    }

    /** The three clear actions close the menu only when their loop ran to
        its end; a refusal leaves it as it was. */
    method ClearAllGotIt(rejectedAt: Option<nat>)
      modifies this
      ensures items == old(items)
      ensures var list := GotItems(old(items));
              && requests == old(requests) + ArchiveRequests(list[..Completed(list, rejectedAt)])
              && showClearMenu == (old(showClearMenu) && Completed(list, rejectedAt) < |list|)
    {
      var done := ArchiveAll(GotItems(items), rejectedAt);
      if done {
        showClearMenu := false;
      }
    }

    method ClearAllNeed(rejectedAt: Option<nat>)
      modifies this
      ensures items == old(items)
      ensures var list := NeededItems(old(items));
              && requests == old(requests) + ArchiveRequests(list[..Completed(list, rejectedAt)])
              && showClearMenu == (old(showClearMenu) && Completed(list, rejectedAt) < |list|)
    {
      var done := ArchiveAll(NeededItems(items), rejectedAt);
      if done {
        showClearMenu := false;
      }
    }

    method ClearByStore(store: string, rejectedAt: Option<nat>)
      modifies this
      ensures items == old(items)
      ensures var list := InStore(NeededItems(old(items)), store);
              && requests == old(requests) + ArchiveRequests(list[..Completed(list, rejectedAt)])
              && showClearMenu == (old(showClearMenu) && Completed(list, rejectedAt) < |list|)
    {
      var done := ArchiveAll(InStore(NeededItems(items), store), rejectedAt);
      if done {
        showClearMenu := false;
      }
    }
  }
}

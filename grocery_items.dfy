/**
 * What the web grocery page and the mobile grocery screen share: the item
 * record, the status filters, the store key of a needed item, the keyword
 * classifier behind guessCategory, the requests the pages send, and the
 * store-frequency ranking of frequentStores.
 */
module GroceryItems {
  import opened Wrappers
  import opened Text
  import opened Seqs
  import opened Sorting
  import opened Records

  /** A grocery item as the pages receive it. Every use of store, quantity
      and category is `|| default`, so a null one is "" here; a null
      purchaseCount is 0 (`|| 0`). */
  datatype Item = Item(id: string, name: string, status: string, store: string,
                       quantity: string, category: string, purchaseCount: int)

  predicate IsNeeded(i: Item) { i.status == "NEEDED" || i.status == "PENDING" }
  predicate IsGot(i: Item) { i.status == "GOT" || i.status == "CHECKED" }
  predicate IsActive(i: Item) { i.status != "ARCHIVED" }

  function NeededItems(items: seq<Item>): seq<Item> { Filter(items, IsNeeded) }
  function GotItems(items: seq<Item>): seq<Item> { Filter(items, IsGot) }
  function ActiveItems(items: seq<Item>): seq<Item> { Filter(items, IsActive) }

  /** No item is both needed and got, and both kinds are active. */
  lemma NeededGotDisjoint(items: seq<Item>, k: nat)
    requires k < |NeededItems(items)|
    ensures NeededItems(items)[k] !in GotItems(items)
    ensures NeededItems(items)[k] in ActiveItems(items)
  {
  }

  /** The needed and the got lists together are no longer than the active list. */
  lemma NeededGotWithinActive(items: seq<Item>)
    ensures |NeededItems(items)| + |GotItems(items)| <= |ActiveItems(items)|
  {
    CountDisjoint(items, IsNeeded, IsGot, IsActive);
    CountIsFilterLength(items, IsNeeded);
    CountIsFilterLength(items, IsGot);
    CountIsFilterLength(items, IsActive);
  }

  /** `item.store || 'No Store'`: the group a needed item is listed under. */
  function StoreKey(i: Item): (k: string)
    ensures k != []
  {
    if i.store == [] then "No Store" else i.store
  }

  /** `neededItems.filter(i => (i.store || 'No Store') === store)`: a store's group. */
  function InStore(needed: seq<Item>, store: string): seq<Item>
  {
    Filter(needed, (i: Item) => StoreKey(i) == store)
  }

  /** The store keys of the needed items, in item order. */
  function NeededStores(items: seq<Item>): seq<string>
  {
    Map(NeededItems(items), StoreKey)
  }

  /** storeNames: a Set filled in item order, as an array. */
  method StoreNames(items: seq<Item>) returns (names: seq<string>)
    ensures names == Dedup(NeededStores(items))
  {
    var needed := NeededItems(items);
    var keys := NeededStores(items);
    names := [];
    for i := 0 to |needed|
      invariant names == Dedup(keys[..i])
    {
      var store := StoreKey(needed[i]);
      assert keys[..i + 1][..i] == keys[..i];
      if store !in names {
        names := names + [store];
      }
    }
    assert keys[..|needed|] == keys;
  }

  /** A store name is offered exactly when some needed item is listed under it,
      so clearing by any offered store removes something. */
  lemma StoreNameHasItems(items: seq<Item>, x: string)
    ensures x in Dedup(NeededStores(items)) <==> InStore(NeededItems(items), x) != []
  {
    var needed := NeededItems(items);
    var keys := NeededStores(items);
    if x in Dedup(keys) {
      var t :| 0 <= t < |keys| && keys[t] == x;
      assert needed[t] in InStore(needed, x);
    }
    if InStore(needed, x) != [] {
      var y := InStore(needed, x)[0];
      var t :| 0 <= t < |needed| && needed[t] == y;
      assert keys[t] == x;
    }
  }

  /** Some needed name, lower-cased, contains the lower-cased essential. */
  predicate OnList(needed: seq<Item>, e: string)
  {
    exists t :: 0 <= t < |needed| && Contains(Lower(needed[t].name), Lower(e))
  }

  /** A suggestion: a name and the store to add it at. */
  datatype Suggestion = Suggestion(name: string, store: string)

  // ---------------------------------------------------------------------
  // guessCategory: keyword groups tried in order
  // ---------------------------------------------------------------------

  /** A category and the keywords that select it. */
  datatype Group = Group(category: string, words: seq<string>)

  /** `words.some(w => lower.includes(w))`. */
  predicate Matches(lower: string, g: Group)
  {
    exists k :: 0 <= k < |g.words| && Contains(lower, g.words[k])
  }

  /** The category of the first group with a keyword in `lower`, else 'Other'. */
  function FirstMatch(lower: string, groups: seq<Group>): (r: string)
    ensures r == "Other" || exists i :: 0 <= i < |groups| && r == groups[i].category && Matches(lower, groups[i])
    decreases |groups|
  {
    if groups == [] then "Other"
    else if Matches(lower, groups[0]) then groups[0].category
    else FirstMatch(lower, groups[1..])
  }

  /** The first matching group decides: the groups after it are never consulted. */
  lemma {:induction false} FirstMatchWins(lower: string, groups: seq<Group>, i: nat)
    requires i < |groups| && Matches(lower, groups[i])
    requires forall j :: 0 <= j < i ==> !Matches(lower, groups[j])
    ensures FirstMatch(lower, groups) == groups[i].category
    decreases i
  {
    if i > 0 {
      FirstMatchWins(lower, groups[1..], i - 1);
    }
  }

  /** Without any keyword the answer is 'Other'. */
  lemma {:induction false} NoMatchIsOther(lower: string, groups: seq<Group>)
    requires forall j :: 0 <= j < |groups| ==> !Matches(lower, groups[j])
    ensures FirstMatch(lower, groups) == "Other"
    decreases |groups|
  {
    if groups != [] {
      NoMatchIsOther(lower, groups[1..]);
    }
  }

  /** A matching group bounds the answer: it comes from that group or an earlier one. */
  lemma {:induction false} FirstMatchNoLater(lower: string, groups: seq<Group>, i: nat)
    requires i < |groups| && Matches(lower, groups[i])
    ensures exists j :: 0 <= j <= i && FirstMatch(lower, groups) == groups[j].category
    decreases i
  {
    if i > 0 && !Matches(lower, groups[0]) {
      FirstMatchNoLater(lower, groups[1..], i - 1);
      var j :| 0 <= j <= i - 1 && FirstMatch(lower, groups[1..]) == groups[1..][j].category;
      assert FirstMatch(lower, groups) == groups[j + 1].category;
    }
  }

  /** Without a group named 'Other', the answer is 'Other' exactly when no
      group matches. */
  lemma FirstMatchOther(lower: string, groups: seq<Group>)
    requires forall j :: 0 <= j < |groups| ==> groups[j].category != "Other"
    ensures FirstMatch(lower, groups) == "Other" <==> forall j :: 0 <= j < |groups| ==> !Matches(lower, groups[j])
  {
    if forall j :: 0 <= j < |groups| ==> !Matches(lower, groups[j]) {
      NoMatchIsOther(lower, groups);
    } else {
      var i :| 0 <= i < |groups| && Matches(lower, groups[i]);
      FirstMatchNoLater(lower, groups, i);
    }
  }

  /** A text containing u + v contains v. */
  lemma ContainsSuffixPart(s: string, u: string, v: string)
    requires Contains(s, u + v)
    ensures Contains(s, v)
  {
    ContainsOccurs(s, u + v);
    var k :| OccursAt(s, u + v, k);
    assert s[k + |u|..k + |u| + |v|] == s[k..k + |u| + |v|][|u|..];
    assert OccursAt(s, v, k + |u|);
    ContainsOccurs(s, v);
  }

  // ---------------------------------------------------------------------
  // Requests the pages send
  // ---------------------------------------------------------------------

  /** The fields of an item update. */
  datatype Patch = Patch(status: string, purchaseCount: Option<int>)

  /** The body of a create-item request. */
  datatype NewItem = NewItem(name: string, quantity: Option<string>, store: string, category: string, status: string)

  /** The body of a create-buy-again request; None is `undefined`. */
  datatype BuyAgain = BuyAgain(name: string, category: Option<string>, store: Option<string>,
                               quantity: Option<string>, purchaseCount: int)

  datatype Request =
    | CreateItem(item: NewItem)
    | UpdateItem(id: string, patch: Patch)
    | DeleteItem(id: string)
    | CreateBuyAgain(entry: BuyAgain)

  /** An item after a patch. */
  function Patched(i: Item, p: Patch): (r: Item)
    ensures r.status == p.status && r.id == i.id && r.name == i.name && r.store == i.store
    ensures r.purchaseCount == if p.purchaseCount.Some? then p.purchaseCount.value else i.purchaseCount
  {
    i.(status := p.status, purchaseCount := p.purchaseCount.GetOr(i.purchaseCount))
  }

  /** The items already stored after the update and delete requests are
      served in order (created records are new rows and not part of `items`). */
  function Served(items: seq<Item>, reqs: seq<Request>): (r: seq<Item>)
    decreases |reqs|
  {
    if reqs == [] then items
    else
      var before := Served(items, reqs[..|reqs| - 1]);
      match reqs[|reqs| - 1]
      case UpdateItem(id, p) => Map(before, (x: Item) => if x.id == id then Patched(x, p) else x)
      case DeleteItem(id) => Filter(before, (x: Item) => x.id != id)
      case _ => before
  }

  /** Updates never remove a stored item. */
  lemma {:induction false} UpdatesKeepItems(items: seq<Item>, reqs: seq<Request>)
    requires forall k :: 0 <= k < |reqs| ==> reqs[k].UpdateItem?
    ensures |Served(items, reqs)| == |items|
    ensures forall k :: 0 <= k < |items| ==> Served(items, reqs)[k].id == items[k].id
    decreases |reqs|
  {
    if reqs != [] {
      UpdatesKeepItems(items, reqs[..|reqs| - 1]);
    }
  }

  // ---------------------------------------------------------------------
  // frequentStores: stores counted in an insertion-ordered record
  // ---------------------------------------------------------------------

  /** The items frequentStores counts: a truthy store other than 'Other'. */
  predicate Counted(i: Item) { i.store != [] && i.store != "Other" }

  /** The stores of the counted items, in order. */
  function CountedStores(items: seq<Item>): (r: seq<string>)
    ensures |r| <= |items|
    decreases |items|
  {
    if items == [] then []
    else
      var last := items[|items| - 1];
      CountedStores(items[..|items| - 1]) + (if Counted(last) then [last.store] else [])
  }

  /** The record from store names to counts. */
  type Counts = Record<nat>

  /** `record[k] || 0`. */
  function Lookup(c: Counts, k: string): nat
  {
    Get(c, k).GetOr(0)
  }

  /** `record[k] = (record[k] || 0) + 1`. */
  function Bump(c: Counts, k: string): Counts
  {
    Put<nat>(c, k, Lookup(c, k) + 1)
  }

  /** The record after counting every key of `ks`. */
  function Tally(ks: seq<string>): Counts
    decreases |ks|
  {
    if ks == [] then [] else Bump(Tally(ks[..|ks| - 1]), ks[|ks| - 1])
  }

  /** How often k occurs in ks. */
  function Occurrences(ks: seq<string>, k: string): nat
    decreases |ks|
  {
    if ks == [] then 0 else Occurrences(ks[..|ks| - 1], k) + (if ks[|ks| - 1] == k then 1 else 0)
  }

  /** The record counts every key exactly as often as it occurs... */
  lemma {:induction false} TallyCounts(ks: seq<string>, k: string)
    ensures Lookup(Tally(ks), k) == Occurrences(ks, k)
    decreases |ks|
  {
    if ks != [] {
      TallyCounts(ks[..|ks| - 1], k);
      var c := Tally(ks[..|ks| - 1]);
      GetPut<nat>(c, ks[|ks| - 1], Lookup(c, ks[|ks| - 1]) + 1, k);
    }
  }

  /** ... and lists each key once, in order of first occurrence. */
  lemma {:induction false} TallyKeys(ks: seq<string>)
    ensures Keys(Tally(ks)) == Dedup(ks)
    decreases |ks|
  {
    if ks != [] {
      var init := ks[..|ks| - 1];
      var x := ks[|ks| - 1];
      TallyKeys(init);
      KeysBump(Tally(init), x);
      DedupLast(ks);
    }
  }

  lemma KeysBump(c: Counts, k: string)
    ensures Keys(Bump(c, k)) == if k in Keys(c) then Keys(c) else Keys(c) + [k]
  {
    KeysPut<nat>(c, k, Lookup(c, k) + 1);
  }

  /** The record of the counted stores. */
  function StoreTally(items: seq<Item>): Counts
  {
    Tally(CountedStores(items))
  }

  lemma StoreTallyDistinct(items: seq<Item>)
    ensures Distinct(Keys(StoreTally(items)))
  {
    TallyKeys(CountedStores(items));
  }

  /** The comparator `(a, b) => b[1] - a[1]`: larger counts first. */
  predicate MoreFrequent(a: (string, nat), b: (string, nat)) { a.1 > b.1 }

  lemma MoreFrequentIsStrictWeak()
    ensures StrictWeak(MoreFrequent)
  {
  }

  /** frequentStores computed from the items: the counted stores by count,
      most frequent first (ties in order of first appearance), at most 15. */
  function TopStores(items: seq<Item>): (r: seq<string>)
    ensures |r| <= 15
  {
    Keys(Take(SortWith(StoreTally(items), MoreFrequent), 15))
  }

  /** Each listed store is a counted one... */
  lemma {:induction false} TopStoresAreCounted(items: seq<Item>, t: nat)
    requires t < |TopStores(items)|
    ensures TopStores(items)[t] in CountedStores(items)
  {
    var c := StoreTally(items);
    var sorted := SortWith(c, MoreFrequent);
    assert sorted[t] in multiset(c);
    var u :| 0 <= u < |c| && c[u] == sorted[t];
    TallyKeys(CountedStores(items));
    assert Keys(c)[u] in Dedup(CountedStores(items));
  }

  /** ... and no store left off the list is more frequent than a listed one. */
  lemma {:induction false} TopStoresAreMostFrequent(items: seq<Item>, s: string, other: string)
    requires s in TopStores(items)
    requires other in CountedStores(items) && other !in TopStores(items)
    ensures Occurrences(CountedStores(items), s) >= Occurrences(CountedStores(items), other)
  {
    var ks := CountedStores(items);
    var c := StoreTally(items);
    var sorted := SortWith(c, MoreFrequent);
    var top := Take(sorted, 15);
    MoreFrequentIsStrictWeak();
    SortWithSorted(c, MoreFrequent);
    StoreTallyDistinct(items);
    TallyKeys(ks);
    var i :| 0 <= i < |top| && Keys(top)[i] == s;
    var j := PermutedKeyAt(c, sorted, other);
    assert forall t :: 0 <= t < |top| ==> Keys(top)[t] == sorted[t].0;
    assert j >= |top|;
    assert !MoreFrequent(sorted[j], sorted[i]);
    PermutedEntryIsGet(c, sorted, i);
    PermutedEntryIsGet(c, sorted, j);
    TallyCounts(ks, s);
    TallyCounts(ks, other);
  }

  /** Incrementing the map entry, `|| 0` when absent, mirrors Bump. */
  lemma MirrorsBump(m: map<string, nat>, order: seq<string>, c: Counts, k: string)
    requires Mirrors(m, order, c)
    ensures Mirrors(m[k := (if k in m then m[k] else 0) + 1], if k in m then order else order + [k], Bump(c, k))
  {
    MirrorsPut<nat>(m, order, c, k, Lookup(c, k) + 1);
  }

  /** One more item in the counting loop. */
  lemma StoreTallySnoc(items: seq<Item>, i: nat)
    requires i < |items|
    ensures StoreTally(items[..i + 1])
            == if Counted(items[i]) then Bump(StoreTally(items[..i]), items[i].store) else StoreTally(items[..i])
  {
    var ks := CountedStores(items[..i]);
    assert items[..i + 1][..i] == items[..i];
    var ks' := CountedStores(items[..i + 1]);
    assert ks' == ks + (if Counted(items[i]) then [items[i].store] else []);
    if Counted(items[i]) {
      assert ks'[..|ks'| - 1] == ks && ks'[|ks'| - 1] == items[i].store;
      assert Tally(ks') == Bump(Tally(ks), items[i].store);
    } else {
      assert ks' == ks;
    }
  }

  /** frequentStores' counting loop: the record as a map and its insertion order. */
  method CountInto(items: seq<Item>) returns (storeCounts: map<string, nat>, order: seq<string>)
    ensures Mirrors(storeCounts, order, StoreTally(items))
  {
    storeCounts := map[];
    order := [];
    for i := 0 to |items|
      invariant Mirrors(storeCounts, order, StoreTally(items[..i]))
    {
      var item := items[i];
      StoreTallySnoc(items, i);
      if item.store != [] && item.store != "Other" {
        MirrorsBump(storeCounts, order, StoreTally(items[..i]), item.store);
        var current := if item.store in storeCounts then storeCounts[item.store] else 0;
        if item.store !in storeCounts {
          order := order + [item.store];
        }
        storeCounts := storeCounts[item.store := current + 1];
      }
    }
    assert items[..|items|] == items;
  }

  /** The counted record, listed in insertion order. */
  method CountStores(items: seq<Item>) returns (entries: Counts)
    ensures entries == StoreTally(items)
  {
    var storeCounts, order := CountInto(items);
    entries := EntriesOf(storeCounts, order);
    StoreTallyDistinct(items);
    MirroredEntries(storeCounts, order, StoreTally(items), entries);
  }

  /** frequentStores from the items: count, sort the entries, keep 15, take the names. */
  method FrequentStoresOf(items: seq<Item>) returns (stores: seq<string>)
    ensures stores == TopStores(items)
  {
    var entries := CountStores(items);
    var sorted := SortWith(entries, MoreFrequent);
    stores := Keys(Take(sorted, 15));
  }
}

/**
 * The Spring grocery endpoints: the household's unchecked items, adding an
 * item, ticking an item on or off, and clearing the ticked ones. The
 * collection is the controller's field; the signed-in user's lookup and the
 * generated id are parameters.
 */
module GroceryController {
  import opened Wrappers
  import opened Seqs
  import opened Text
  import opened Records
  import opened MongoStore
  import S = AIScheduleService

  const ItemNotFound: string := "Item not found"

  /** The bound CreateGroceryRequest; `category` keeps its default of OTHER when absent. */
  datatype CreateGroceryRequest = CreateGroceryRequest(
    name: Option<string>, category: S.Category, neededByDate: Option<S.Date>)

  predicate ValidGroceryRequest(r: CreateGroceryRequest)
  {
    NotBlank(r.name)
  }

  predicate UncheckedIn(householdId: Option<string>, item: S.GroceryItem)
  {
    item.householdId == householdId && !item.checked
  }

  predicate CheckedIn(householdId: Option<string>, item: S.GroceryItem)
  {
    item.householdId == householdId && item.checked
  }

  /** findByHouseholdIdAndChecked(householdId, false). */
  function PendingItems(items: Collection<S.GroceryItem>, householdId: Option<string>): (r: Collection<S.GroceryItem>)
    ensures forall i :: 0 <= i < |r| ==> r[i] in items && UncheckedIn(householdId, r[i].1)
    ensures forall i :: 0 <= i < |items| && UncheckedIn(householdId, items[i].1) ==> items[i] in r
  {
    Where(items, it => UncheckedIn(householdId, it))
  }

  /** findByHouseholdIdAndChecked(householdId, true). */
  function CheckedItems(items: Collection<S.GroceryItem>, householdId: Option<string>): (r: Collection<S.GroceryItem>)
    ensures forall i :: 0 <= i < |r| ==> r[i] in items && CheckedIn(householdId, r[i].1)
    ensures forall i :: 0 <= i < |items| && CheckedIn(householdId, items[i].1) ==> items[i] in r
  {
    Where(items, it => CheckedIn(householdId, it))
  }

  /** The reference for clearing: every item but the household's checked ones, in order. */
  function Remaining(items: Collection<S.GroceryItem>, householdId: Option<string>): (r: Collection<S.GroceryItem>)
    ensures forall i :: 0 <= i < |r| ==> r[i] in items && !CheckedIn(householdId, r[i].1)
    ensures forall i :: 0 <= i < |items| && !CheckedIn(householdId, items[i].1) ==> items[i] in r
  {
    Where(items, it => !CheckedIn(householdId, it))
  }

  /** Deleting ids that pick out exactly the household's checked items
      leaves the rest. */
  lemma {:induction false} DeleteMatching(s: Collection<S.GroceryItem>, ids: seq<string>, householdId: Option<string>)
    requires forall i :: 0 <= i < |s| ==> (s[i].0 in ids <==> CheckedIn(householdId, s[i].1))
    ensures DeleteIds(s, ids) == Remaining(s, householdId)
    decreases |s|
  {
    if s != [] {
      var init := s[..|s| - 1];
      var last := s[|s| - 1];
      assert forall i :: 0 <= i < |init| ==> init[i] == s[i];
      DeleteMatching(init, ids, householdId);
      assert DeleteIds(s, ids) == DeleteIds(init, ids) + (if last.0 !in ids then [last] else []);
      assert Remaining(s, householdId) ==
             Remaining(init, householdId) + (if !CheckedIn(householdId, last.1) then [last] else []);
    }
  }

  /** With unique ids, the ids of the checked items are exactly the ids of
      checked items, so deleting them removes those items and keeps the rest. */
  lemma ClearRemovesChecked(items: Collection<S.GroceryItem>, householdId: Option<string>)
    requires UniqueIds(items)
    ensures DeleteIds(items, Keys(CheckedItems(items, householdId))) == Remaining(items, householdId)
  {
    var checked := CheckedItems(items, householdId);
    var ids := Keys(checked);
    forall i | 0 <= i < |items| ensures items[i].0 in ids <==> CheckedIn(householdId, items[i].1) {
      if items[i].0 in ids {
        var j :| 0 <= j < |ids| && ids[j] == items[i].0;
        var k :| 0 <= k < |items| && items[k] == checked[j];
        UniqueIdEntry(items, i, k);
      }
      if CheckedIn(householdId, items[i].1) {
        var j :| 0 <= j < |checked| && checked[j] == items[i];
        assert ids[j] == items[i].0;
      }
    }
    DeleteMatching(items, ids, householdId);
  }

  /** The item addGroceryItem builds; createdAt and updatedAt are not modelled. */
  function NewItem(request: CreateGroceryRequest, user: S.User): (it: S.GroceryItem)
    requires ValidGroceryRequest(request)
    ensures !it.checked
    ensures it.name == request.name && it.category == request.category && it.neededByDate == request.neededByDate
    ensures it.addedById == user.id && it.householdId == user.householdId
  {
    S.GroceryItem(request.name, request.category, request.neededByDate, false, user.id, user.householdId)
  }

  /** toggleItem's setter on the loaded item. */
  function Toggled(it: S.GroceryItem): (r: S.GroceryItem)
    ensures r.checked == !it.checked && r.(checked := it.checked) == it
  {
    it.(checked := !it.checked)
  }

  /** toggleItem on a collection: None when the id is unknown. */
  function ToggleIn(items: Collection<S.GroceryItem>, id: string): (r: Option<Collection<S.GroceryItem>>)
    ensures r.Some? <==> Get(items, id).Some?
  {
    match Get(items, id)
    case None => None
    case Some(it) => Some(Put(items, id, Toggled(it)))
  }

  /** Toggling the same item twice restores the collection. */
  lemma ToggleTwiceRestores(items: Collection<S.GroceryItem>, id: string)
    requires Get(items, id).Some?
    ensures ToggleIn(items, id).Some?
    ensures ToggleIn(ToggleIn(items, id).value, id) == Some(items)
  {
    var it := Get(items, id).value;
    GetPut(items, id, Toggled(it), id);
    SaveTwice(items, id, Toggled(it), Toggled(Toggled(it)));
    assert Toggled(Toggled(it)) == it;
    SaveSame(items, id, it);
  }

  class Controller {
    var items: Collection<S.GroceryItem>

    predicate Valid()
      reads this
    {
      UniqueIds(items)
    }

    constructor(initial: Collection<S.GroceryItem>)
      requires UniqueIds(initial)
      ensures Valid() && items == initial
    {
      items := initial;
    }

    /** GET /api/groceries/pending. */
    method GetPendingGroceries(user: Option<S.User>) returns (r: Response<Collection<S.GroceryItem>>)
      ensures user.None? ==> r == ServerError(UserNotFound)
      ensures user.Some? ==> r.Ok?
      ensures r.Ok? ==> forall i :: 0 <= i < |r.body| ==>
                r.body[i] in items && !r.body[i].1.checked && r.body[i].1.householdId == user.value.householdId
      ensures r.Ok? ==> forall i :: 0 <= i < |items| && UncheckedIn(user.value.householdId, items[i].1) ==>
                items[i] in r.body
    {
      if user.None? {
        return ServerError(UserNotFound);
      }
      r := Ok(PendingItems(items, user.value.householdId));
    }

    /** POST /api/groceries; `newId` is the id save generates. */
    method AddGroceryItem(user: Option<S.User>, request: CreateGroceryRequest, newId: string)
        returns (r: Response<(string, S.GroceryItem)>)
      requires Valid() && newId !in Keys(items)
      modifies this
      ensures Valid()
      ensures !ValidGroceryRequest(request) ==> r == BadRequest && items == old(items)
      ensures ValidGroceryRequest(request) && user.None? ==> r == ServerError(UserNotFound) && items == old(items)
      ensures ValidGroceryRequest(request) && user.Some? ==>
                r == Ok((newId, NewItem(request, user.value))) &&
                items == old(items) + [(newId, NewItem(request, user.value))]
    {
      if !ValidGroceryRequest(request) {
        return BadRequest;
      }
      if user.None? {
        return ServerError(UserNotFound);
      }
      var item := NewItem(request, user.value);
      SaveNew(items, newId, item);
      items := Put(items, newId, item);
      r := Ok((newId, item));
    }

    /** PATCH /api/groceries/{id}/toggle. */
    method ToggleItem(id: string) returns (r: Response<(string, S.GroceryItem)>)
      requires Valid()
      modifies this
      ensures Valid()
      ensures Get(old(items), id).None? ==> r == ServerError(ItemNotFound) && items == old(items)
      ensures Get(old(items), id).Some? ==>
                r == Ok((id, Toggled(Get(old(items), id).value))) && Some(items) == ToggleIn(old(items), id)
    {
      var found := Get(items, id);
      if found.None? {
        return ServerError(ItemNotFound);
      }
      var item := Toggled(found.value);
      SaveExisting(items, id, item);
      items := Put(items, id, item);
      r := Ok((id, item));
    }

    /** DELETE /api/groceries/clear-checked: a 204, after which exactly the
        household's checked items are gone. */
    method ClearCheckedItems(user: Option<S.User>) returns (r: Response<()>)
      requires Valid()
      modifies this
      ensures Valid()
      ensures user.None? ==> r == ServerError(UserNotFound) && items == old(items)
      ensures user.Some? ==> r == Ok(()) && items == Remaining(old(items), user.value.householdId)
    {
      if user.None? {
        return ServerError(UserNotFound);
      }
      var checked := CheckedItems(items, user.value.householdId);
      ClearRemovesChecked(items, user.value.householdId);
      DeleteKeepsUnique(items, Keys(checked));
      items := DeleteIds(items, Keys(checked));
      r := Ok(());
    }
  }
}

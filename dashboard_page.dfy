/**
 * The web dashboard page: the widget layout and its edit mode (moving a
 * widget up or down, showing or hiding it), the smart-input box that sends
 * text to the schedule route, the quick-add forms and the dose buttons.
 */
module DashboardPage {
  import opened Wrappers
  import opened Seqs
  import opened Sorting
  import opened Json
  import opened Forms
  import opened Medicine
  import opened DashboardWidgets
  import AiScheduleRoute

  // ---------------------------------------------------------------------
  // The widget layout
  // ---------------------------------------------------------------------

  /** The comparator `a.position - b.position`. */
  predicate ByPosition(a: WidgetConfig, b: WidgetConfig) { a.position < b.position }

  predicate IsVisible(w: WidgetConfig) { w.visible }

  /** The saved layout, or the default one when none was saved. */
  function LayoutOf(saved: Option<seq<WidgetConfig>>): seq<WidgetConfig>
  {
    saved.GetOr(DefaultWidgets())
  }

  /** The layout's widgets by position, ties in saved order. */
  function ByPositionOf(saved: Option<seq<WidgetConfig>>): seq<WidgetConfig>
  {
    SortWith(LayoutOf(saved), ByPosition)
  }

  /** The widgets the page renders: the visible ones, by position. */
  function RenderedWidgets(saved: Option<seq<WidgetConfig>>): seq<WidgetConfig>
  {
    Filter(ByPositionOf(saved), IsVisible)
  }

  /** Every visible widget of the layout is rendered once and nothing else is. */
  lemma RenderedWidgetsAreVisible(saved: Option<seq<WidgetConfig>>)
    ensures multiset(RenderedWidgets(saved)) == multiset(Filter(LayoutOf(saved), IsVisible))
  {
    FilterPermutation(SortWith(LayoutOf(saved), ByPosition), LayoutOf(saved), IsVisible);
  }

  /** Positions never decrease down the page. */
  lemma RenderedWidgetsOrdered(saved: Option<seq<WidgetConfig>>)
    ensures var r := RenderedWidgets(saved);
            forall i, j :: 0 <= i < j < |r| ==> r[i].position <= r[j].position
  {
    var sorted := ByPositionOf(saved);
    ByPositionOfSorted(saved);
    FilterSorted(sorted, ByPosition, IsVisible);
    var r := RenderedWidgets(saved);
    assert SortedBy(r, ByPosition);
    forall i, j | 0 <= i < j < |r| ensures r[i].position <= r[j].position {
      assert !ByPosition(r[j], r[i]);
    }
  }

  lemma ByPositionOfSorted(saved: Option<seq<WidgetConfig>>)
    ensures SortedBy(ByPositionOf(saved), ByPosition)
  {
    assert StrictWeak(ByPosition);
    SortWithSorted(LayoutOf(saved), ByPosition);
  }

  /** With nothing saved, the page shows the eight default widgets in their default order. */
  lemma UnsavedShowsDefaults()
    ensures RenderedWidgets(None) == DefaultWidgets()
  {
    var d := DefaultWidgets();
    DefaultWidgetsLayout();
    SortWithOfSorted(d, ByPosition);
    FilterAll(d, IsVisible);
  }

  /** `swapIndex` of moveWidget. */
  function SwapIndex(index: int, up: bool): int
  {
    if up then index - 1 else index + 1
  }

  /** The two widgets at `i` and `j` change places. */
  function Swap(ws: seq<WidgetConfig>, i: nat, j: nat): (r: seq<WidgetConfig>)
    requires i < |ws| && j < |ws|
    ensures |r| == |ws| && r[i] == ws[j] && r[j] == ws[i]
    ensures forall k :: 0 <= k < |ws| && k != i && k != j ==> r[k] == ws[k]
  {
    ws[i := ws[j]][j := ws[i]]
  }

  /** `forEach((w, i) => w.position = i)`: the widgets and their order stay,
      each position becomes the widget's index. */
  function Renumber(ws: seq<WidgetConfig>): (r: seq<WidgetConfig>)
    ensures |r| == |ws| && Numbered(r)
    ensures forall k :: 0 <= k < |ws| ==> r[k].id == ws[k].id && r[k].visible == ws[k].visible
  {
    seq(|ws|, k requires 0 <= k < |ws| => ws[k].(position := k))
  }

  function WidgetId(w: WidgetConfig): string { w.id }

  /** The edit list after moveWidget(index, direction). */
  function Moved(ws: seq<WidgetConfig>, index: nat, up: bool): seq<WidgetConfig>
    requires index < |ws|
  {
    var j := SwapIndex(index, up);
    if j < 0 || j >= |ws| then ws else Renumber(Swap(ws, index, j))
  }

  /** Moving the first widget up or the last one down changes nothing;
      any other move exchanges the widget with its neighbour, keeps the
      same widgets, and numbers every position by its index. */
  lemma MovedLayout(ws: seq<WidgetConfig>, index: nat, up: bool)
    requires index < |ws|
    ensures var j := SwapIndex(index, up);
            var r := Moved(ws, index, up);
            && (j < 0 || j >= |ws| ==> r == ws)
            && (0 <= j < |ws| ==>
                  && Numbered(r)
                  && r[index].id == ws[j].id && r[j].id == ws[index].id
                  && (forall k :: 0 <= k < |ws| && k != index && k != j ==> r[k].id == ws[k].id)
                  && multiset(Map(r, WidgetId)) == multiset(Map(ws, WidgetId)))
  {
    var j := SwapIndex(index, up);
    if 0 <= j < |ws| {
      var r := Moved(ws, index, up);
      var ids := Map(ws, WidgetId);
      assert Map(r, WidgetId) == ids[index := ids[j]][j := ids[index]];
    }
  }

  /** Moving a widget and then moving it back restores a numbered list. */
  lemma MoveBack(ws: seq<WidgetConfig>, index: nat, up: bool)
    requires index < |ws| && Numbered(ws)
    requires 0 <= SwapIndex(index, up) < |ws|
    ensures Moved(Moved(ws, index, up), SwapIndex(index, up), !up) == ws
  {
    var j := SwapIndex(index, up);
    var once := Moved(ws, index, up);
    assert SwapIndex(j, !up) == index;
    var twice := Moved(once, j, !up);
    assert |twice| == |ws|;
    forall k | 0 <= k < |ws| ensures twice[k] == ws[k] {
    }
  }

  /** toggleWidgetVisibility(index): that widget's visibility flips, nothing else changes. */
  function Toggled(ws: seq<WidgetConfig>, index: nat): (r: seq<WidgetConfig>)
    requires index < |ws|
    ensures |r| == |ws|
    ensures r[index].visible == !ws[index].visible
    ensures r[index].id == ws[index].id && r[index].position == ws[index].position
    ensures forall k :: 0 <= k < |ws| && k != index ==> r[k] == ws[k]
  {
    ws[index := ws[index].(visible := !ws[index].visible)]
  }

  /** Toggling the same widget twice restores the list. */
  lemma ToggleTwice(ws: seq<WidgetConfig>, index: nat)
    requires index < |ws|
    ensures Toggled(Toggled(ws, index), index) == ws
  {
    var twice := Toggled(Toggled(ws, index), index);
    assert twice[index] == ws[index];
  }

  // ---------------------------------------------------------------------
  // Which cached widget each edit entry is
  // ---------------------------------------------------------------------

  /** A widget of the cached layout paired with its index there. */
  type Tagged = (nat, WidgetConfig)

  function Tag(ws: seq<WidgetConfig>): (r: seq<Tagged>)
    ensures |r| == |ws| && forall k :: 0 <= k < |ws| ==> r[k] == (k, ws[k])
  {
    seq(|ws|, k requires 0 <= k < |ws| => (k, ws[k]))
  }

  function Untag(ps: seq<Tagged>): (r: seq<WidgetConfig>)
    ensures |r| == |ps| && forall k :: 0 <= k < |ps| ==> r[k] == ps[k].1
  {
    seq(|ps|, k requires 0 <= k < |ps| => ps[k].1)
  }

  predicate TaggedByPosition(a: Tagged, b: Tagged) { ByPosition(a.1, b.1) }

  /** Sorting the tagged widgets by position and dropping the tags sorts the widgets. */
  lemma {:induction false} UntagInsert(x: Tagged, l: seq<Tagged>)
    ensures Untag(Insert(x, l, TaggedByPosition)) == Insert(x.1, Untag(l), ByPosition)
  {
    if l != [] && TaggedByPosition(l[0], x) {
      UntagInsert(x, l[1..]);
      assert Untag(l)[1..] == Untag(l[1..]);
      assert Untag([l[0]] + Insert(x, l[1..], TaggedByPosition))
          == [l[0].1] + Untag(Insert(x, l[1..], TaggedByPosition));
    } else {
      assert Untag([x] + l) == [x.1] + Untag(l);
    }
  }

  lemma {:induction false} UntagSort(ps: seq<Tagged>)
    ensures Untag(SortWith(ps, TaggedByPosition)) == SortWith(Untag(ps), ByPosition)
  {
    if ps != [] {
      UntagSort(ps[1..]);
      assert Untag(ps)[1..] == Untag(ps[1..]);
      UntagInsert(ps[0], SortWith(ps[1..], TaggedByPosition));
    }
  }

  /** An element that occurs twice is counted twice. */
  lemma RepeatedCountsTwice<T>(s: seq<T>, i: nat, j: nat)
    requires i < j < |s| && s[i] == s[j]
    ensures multiset(s)[s[i]] >= 2
  {
    assert s == s[..j] + [s[j]] + s[j + 1..];
    assert s[i] in s[..j];
  }

  /** Every tag occurs once. */
  lemma {:induction false} TagsOnce(ws: seq<WidgetConfig>, x: Tagged)
    ensures multiset(Tag(ws))[x] <= 1
  {
    if ws != [] {
      var n := |ws| - 1;
      TagsOnce(ws[..n], x);
      assert Tag(ws) == Tag(ws[..n]) + [(n, ws[n])];
      if x == (n, ws[n]) {
        assert x !in Tag(ws[..n]);
      }
    }
  }

  /** The copy `[...widgetConfigs].sort(...)`, each entry with the index of
      the cached widget it is. */
  function SortedTags(ws: seq<WidgetConfig>): seq<Tagged>
  {
    SortWith(Tag(ws), TaggedByPosition)
  }

  /** Every entry of the sorted copy is the cached widget its tag names. */
  lemma SortedTagsPoint(ws: seq<WidgetConfig>, k: nat)
    requires k < |SortedTags(ws)|
    ensures var s := SortedTags(ws); s[k].0 < |ws| && ws[s[k].0] == s[k].1
  {
    var s := SortedTags(ws);
    assert s[k] in multiset(Tag(ws));
  }

  /** No cached widget appears twice in the sorted copy. */
  lemma SortedTagsDistinct(ws: seq<WidgetConfig>, i: nat, j: nat)
    requires i < j < |SortedTags(ws)|
    ensures var s := SortedTags(ws); s[i].0 != s[j].0
  {
    var s := SortedTags(ws);
    if s[i].0 == s[j].0 {
      SortedTagsPoint(ws, i);
      SortedTagsPoint(ws, j);
      RepeatedCountsTwice(s, i, j);
      TagsOnce(ws, s[i]);
      assert false;
    }
  }

  /** No two shared entries are the same cached widget. */
  ghost predicate Injective(sh: seq<Option<nat>>)
  {
    forall i, j :: 0 <= i < j < |sh| && sh[i].Some? && sh[j].Some? ==> sh[i].value != sh[j].value
  }

  /** Each shared entry of `edits` equals the cached widget it is. */
  ghost predicate Mirrors(cache: seq<WidgetConfig>, edits: seq<WidgetConfig>, sh: seq<Option<nat>>)
  {
    && |sh| == |edits|
    && forall k :: 0 <= k < |sh| && sh[k].Some? ==> sh[k].value < |cache| && cache[sh[k].value] == edits[k]
  }

  /** The shares of a fresh sorted copy: every entry is its cached widget. */
  function SharesOf(s: seq<Tagged>): (r: seq<Option<nat>>)
    ensures |r| == |s| && forall k :: 0 <= k < |s| ==> r[k] == Some(s[k].0)
  {
    seq(|s|, k requires 0 <= k < |s| => Some(s[k].0))
  }

  /** No entry is any cached widget. */
  function Unshared(n: nat): (r: seq<Option<nat>>)
    ensures |r| == n && forall k :: 0 <= k < n ==> r[k].None?
  {
    seq(n, k => None)
  }

  lemma UnsharedAliased(cache: seq<WidgetConfig>, ws: seq<WidgetConfig>)
    ensures Mirrors(cache, ws, Unshared(|ws|)) && Injective(Unshared(|ws|))
  {
  }

  /** The sorted copy of a cached layout is a by-position copy sharing every widget once. */
  lemma SortedCopyAliased(ws: seq<WidgetConfig>)
    ensures var s := SortedTags(ws);
            && Untag(s) == SortWith(ws, ByPosition)
            && Mirrors(ws, Untag(s), SharesOf(s)) && Injective(SharesOf(s))
  {
    var s := SortedTags(ws);
    UntagSort(Tag(ws));
    assert Untag(Tag(ws)) == ws;
    forall k | 0 <= k < |s| ensures s[k].0 < |ws| && ws[s[k].0] == Untag(s)[k] {
      SortedTagsPoint(ws, k);
    }
    forall i, j | 0 <= i < j < |s| ensures s[i].0 != s[j].0 {
      SortedTagsDistinct(ws, i, j);
    }
  }

  /** The edit list and its sharing right after entering edit mode. */
  function EditCopy(saved: Option<seq<WidgetConfig>>): (r: (seq<WidgetConfig>, seq<Option<nat>>))
    ensures r.0 == ByPositionOf(saved)
    ensures Mirrors(saved.GetOr([]), r.0, r.1) && Injective(r.1)
    ensures forall k :: 0 <= k < |r.1| ==> (r.1[k].Some? <==> saved.Some?)
  {
    match saved
    case Some(ws) => SavedCopy(ws)
    case None => DefaultCopy()
  }

  function SavedCopy(ws: seq<WidgetConfig>): (r: (seq<WidgetConfig>, seq<Option<nat>>))
    ensures r.0 == ByPositionOf(Some(ws))
    ensures Mirrors(ws, r.0, r.1) && Injective(r.1)
    ensures forall k :: 0 <= k < |r.1| ==> r.1[k].Some?
  {
    var s := SortedTags(ws);
    SortedCopyAliased(ws);
    (Untag(s), SharesOf(s))
  }

  function DefaultCopy(): (r: (seq<WidgetConfig>, seq<Option<nat>>))
    ensures r.0 == ByPositionOf(None)
    ensures Mirrors([], r.0, r.1) && Injective(r.1)
    ensures forall k :: 0 <= k < |r.1| ==> r.1[k].None?
  {
    var layout := ByPositionOf(None);
    UnsharedAliased([], layout);
    (layout, Unshared(|layout|))
  }

  /** Swapping two entries together with what they share keeps the sharing. */
  lemma SwapKeepsSharing(cache: seq<WidgetConfig>, ws: seq<WidgetConfig>, sh: seq<Option<nat>>, i: nat, j: nat)
    requires Mirrors(cache, ws, sh) && Injective(sh) && i < |ws| && j < |ws|
    ensures Mirrors(cache, Swap(ws, i, j), sh[i := sh[j]][j := sh[i]])
    ensures Injective(sh[i := sh[j]][j := sh[i]])
  {
    var sh' := sh[i := sh[j]][j := sh[i]];
    forall a, b | 0 <= a < b < |sh'| && sh'[a].Some? && sh'[b].Some? ensures sh'[a].value != sh'[b].value {
      var a0 := if a == i then j else if a == j then i else a;
      var b0 := if b == i then j else if b == j then i else b;
      assert sh'[a] == sh[a0] && sh'[b] == sh[b0] && a0 != b0;
      if a0 < b0 { assert sh[a0].value != sh[b0].value; } else { assert sh[b0].value != sh[a0].value; }
    }
  }

  /** What holds after the first `i` entries of the swapped copy were renumbered:
      those entries and the cached widgets they are carry their new positions,
      the rest are as before, and cached widgets no entry is are untouched. */
  ghost predicate Renumbering(cache: seq<WidgetConfig>, cache0: seq<WidgetConfig>, cur: seq<WidgetConfig>,
                              swapped: seq<WidgetConfig>, sh: seq<Option<nat>>, i: nat)
  {
    && |cache| == |cache0| && |cur| == |swapped| && i <= |cur|
    && (forall k :: 0 <= k < i ==> cur[k] == swapped[k].(position := k))
    && (forall k :: i <= k < |cur| ==> cur[k] == swapped[k])
    && Mirrors(cache, cur, sh) && Injective(sh)
    && (forall c :: 0 <= c < |cache| && Some(c) !in sh ==> cache[c] == cache0[c])
  }

  /** One step of `forEach((w, i) => w.position = i)` over shared objects. */
  lemma RenumberingStep(cache: seq<WidgetConfig>, cache0: seq<WidgetConfig>, cur: seq<WidgetConfig>,
                        swapped: seq<WidgetConfig>, sh: seq<Option<nat>>, i: nat)
    requires Renumbering(cache, cache0, cur, swapped, sh, i) && i < |cur|
    ensures var cur' := cur[i := cur[i].(position := i)];
            var cache' := if sh[i].Some? then cache[sh[i].value := cur'[i]] else cache;
            Renumbering(cache', cache0, cur', swapped, sh, i + 1)
  {
    var cur' := cur[i := cur[i].(position := i)];
    var cache' := if sh[i].Some? then cache[sh[i].value := cur'[i]] else cache;
    forall k | 0 <= k < |sh| && sh[k].Some? ensures sh[k].value < |cache'| && cache'[sh[k].value] == cur'[k] {
      if k != i && sh[i].Some? {
        if k < i { assert sh[k].value != sh[i].value; } else { assert sh[i].value != sh[k].value; }
      }
    }
    forall c | 0 <= c < |cache'| && Some(c) !in sh ensures cache'[c] == cache0[c] {
      if sh[i].Some? { assert sh[i] in sh; }
    }
  }

  /** After the whole list: every shared cached widget took its entry's index as position. */
  lemma RenumberingDone(cache: seq<WidgetConfig>, cache0: seq<WidgetConfig>, cur: seq<WidgetConfig>,
                        swapped: seq<WidgetConfig>, sh: seq<Option<nat>>)
    requires Renumbering(cache, cache0, cur, swapped, sh, |cur|) && Mirrors(cache0, swapped, sh)
    ensures cur == Renumber(swapped)
    ensures forall k :: 0 <= k < |sh| && sh[k].Some? ==>
              cache[sh[k].value] == cache0[sh[k].value].(position := k)
  {
  }

  // ---------------------------------------------------------------------
  // The smart input
  // ---------------------------------------------------------------------

  /** What the result panel shows. */
  datatype SmartResult = SmartResult(success: bool, message: string, items: seq<Json>)

  const SmartFailure: string := "Something went wrong. Make sure the API is configured."

  function TotalCreated(data: AiScheduleRoute.ScheduleResponse): nat
  {
    data.choresCreated + data.remindersCreated + data.medicationsCreated + data.groceriesCreated
  }

  /** The panel after the request: the route's message and items, a success
      exactly when it created something; the fixed failure when the request failed. */
  function SmartResultOf(reply: Option<AiScheduleRoute.ScheduleResponse>): (r: SmartResult)
    ensures r.success <==> reply.Some? && TotalCreated(reply.value) > 0
    ensures reply.None? ==> r.message == SmartFailure && r.items == []
    ensures reply.Some? ==> r.message == reply.value.message && r.items == reply.value.items
  {
    match reply
    case None => SmartResult(false, SmartFailure, [])
    case Some(data) => SmartResult(TotalCreated(data) > 0, data.message, data.items)
  }

  /** A reply summarising a finished loop succeeds exactly when some item was
      counted, and then its message names the count. */
  lemma SummarySucceeds(s: AiScheduleRoute.Tally)
    ensures var r := SmartResultOf(Some(AiScheduleRoute.Summary(s)));
            var total := s.chores + s.reminders + s.groceries + s.medications;
            && (r.success <==> total > 0)
            && (r.success ==> r.message == AiScheduleRoute.MsgCreated(total))
            && r.items == s.items
  {
  }

  // ---------------------------------------------------------------------
  // The page state
  // ---------------------------------------------------------------------

  /** The page. `saved` is the cached layout the query returned (None when
      the family saved none and the defaults are built afresh on each
      render), and `shares[k]` names the cached widget that edit entry `k`
      is the very same object as, if any: the spread copies of the lists
      copy references, so a position written through the edit list is
      written into the cache too. */
  class Page {
    var saved: Option<seq<WidgetConfig>>
    var editMode: bool
    var editWidgets: seq<WidgetConfig>
    var shares: seq<Option<nat>>
    var smartInputText: string
    var isProcessing: bool
    var lastResult: Option<SmartResult>

    /** Each shared edit entry equals the cached widget it is, and no two
        entries are the same cached widget. */
    ghost predicate Aliased()
      reads this
    {
      Mirrors(saved.GetOr([]), editWidgets, shares) && Injective(shares)
    }

    constructor (saved: Option<seq<WidgetConfig>>)
      ensures this.saved == saved && !editMode && editWidgets == [] && shares == []
      ensures smartInputText == [] && !isProcessing && lastResult == None
      ensures Aliased()
    {
      this.saved := saved;
      editMode := false;
      editWidgets := [];
      shares := [];
      smartInputText := [];
      isProcessing := false;
      lastResult := None;
    }

    /** Entering edit mode copies the layout, sorted by position; with a
        cached layout every entry is the cached widget itself. */
    method EnterEditMode()
      modifies this`editMode, this`editWidgets, this`shares
      ensures editMode && editWidgets == ByPositionOf(saved) && Aliased()
      ensures forall k :: 0 <= k < |shares| ==> (shares[k].Some? <==> saved.Some?)
    {
      editMode := true;
      var copy := EditCopy(saved);
      editWidgets := copy.0;
      shares := copy.1;
    }

    /** moveWidget: swap on a copy of the edit list, then renumber it. The
        copy holds the same objects, so each renumbered entry that is a
        cached widget renumbers that cached widget as well. */
    method MoveWidget(index: nat, up: bool)
      requires index < |editWidgets| && Aliased()
      modifies this`editWidgets, this`shares, this`saved
      ensures Aliased()
      ensures editWidgets == Moved(old(editWidgets), index, up)
      ensures var j := SwapIndex(index, up);
              if j < 0 || j >= |old(editWidgets)| then shares == old(shares) && saved == old(saved)
              else
                var c1, c0 := saved.GetOr([]), old(saved).GetOr([]);
                && shares == old(shares)[index := old(shares)[j]][j := old(shares)[index]]
                && saved.Some? == old(saved).Some? && |c1| == |c0|
                && (forall k :: 0 <= k < |shares| && shares[k].Some? ==>
                      c1[shares[k].value] == c0[shares[k].value].(position := k))
                && (forall c :: 0 <= c < |c1| && Some(c) !in shares ==> c1[c] == c0[c])
    {
      var ws := editWidgets;
      var swapIndex := SwapIndex(index, up);
      if swapIndex < 0 || swapIndex >= |ws| {
        return;
      }
      var a := new WidgetConfig[|ws|](k requires 0 <= k < |ws| => ws[k]);
      var temp := a[index];
      a[index] := a[swapIndex];
      a[swapIndex] := temp;
      ghost var swapped := Swap(ws, index, swapIndex);
      assert a[..] == swapped;
      var sh := shares[index := shares[swapIndex]][swapIndex := shares[index]];
      var cache := saved.GetOr([]);
      ghost var cache0 := cache;
      SwapKeepsSharing(cache, ws, shares, index, swapIndex);
      for i := 0 to a.Length
        modifies a
        invariant Renumbering(cache, cache0, a[..], swapped, sh, i)
      {
        RenumberingStep(cache, cache0, a[..], swapped, sh, i);
        a[i] := a[i].(position := i);
        if sh[i].Some? {
          cache := cache[sh[i].value := a[i]];
        }
      }
      RenumberingDone(cache, cache0, a[..], swapped, sh);
      editWidgets := a[..];
      shares := sh;
      if saved.Some? {
        saved := Some(cache);
      }
    }

    /** toggleWidgetVisibility: the entry is replaced by a changed copy, so it
        no longer is any cached widget. */
    method ToggleWidgetVisibility(index: nat)
      requires index < |editWidgets| && Aliased()
      modifies this`editWidgets, this`shares
      ensures editWidgets == Toggled(old(editWidgets), index)
      ensures shares == old(shares)[index := None] && Aliased()
    {
      var w := editWidgets[index];
      editWidgets := editWidgets[index := w.(visible := !w.visible)];
      shares := shares[index := None];
    }

    /** Cancel (and closing the dialog) leaves edit mode and nothing else:
        renumbered cached widgets keep their new positions. */
    method CancelEdit()
      modifies this`editMode
      ensures !editMode
    {
      editMode := false;
    }

    /** saveWidgetConfig: the edit list is sent and edit mode ends. */
    method SaveWidgetConfig() returns (sent: seq<WidgetConfig>)
      modifies this`editMode
      ensures sent == editWidgets && !editMode
    {
      sent := editWidgets;
      editMode := false;
    }

    /** A refetch replaces the cached layout with new objects, which no edit
        entry is. */
    method Refetch(layout: Option<seq<WidgetConfig>>)
      modifies this`saved, this`shares
      ensures saved == layout && |shares| == |editWidgets| && Aliased()
      ensures forall k :: 0 <= k < |shares| ==> shares[k].None?
    {
      UnsharedAliased(layout.GetOr([]), editWidgets);
      saved := layout;
      shares := Unshared(|editWidgets|);
    }

    /** processSmartInput, with the route's reply (None when the request
      failed): nothing happens for blank text or while a request runs;
      otherwise the panel shows the result and the text is cleared only
      when something was created. */
    method ProcessSmartInput(reply: Option<AiScheduleRoute.ScheduleResponse>)
      modifies this`smartInputText, this`isProcessing, this`lastResult
      ensures Blank(old(smartInputText)) || old(isProcessing) ==>
                smartInputText == old(smartInputText) && isProcessing == old(isProcessing)
                && lastResult == old(lastResult)
      ensures !Blank(old(smartInputText)) && !old(isProcessing) ==>
                && lastResult == Some(SmartResultOf(reply)) && !isProcessing
                && smartInputText == (if SmartResultOf(reply).success then [] else old(smartInputText))
    {
      if Blank(smartInputText) || isProcessing {
        return;
      }
      isProcessing := true;
      lastResult := None;
      match reply {
        case None =>
          lastResult := Some(SmartResult(false, SmartFailure, []));
        case Some(data) =>
          var totalCreated := data.choresCreated + data.remindersCreated + data.medicationsCreated
                              + data.groceriesCreated;
          lastResult := Some(SmartResult(totalCreated > 0, data.message, data.items));
          if totalCreated > 0 {
            smartInputText := [];
          }
      }
      isProcessing := false;
    }
  }

  // ---------------------------------------------------------------------
  // The quick-add forms
  // ---------------------------------------------------------------------

  const NeedReminderTitle: string := "Please enter a reminder title."
  const NeedChoreFields: string := "Please fill in task name and assign to someone."
  const NeedMedicineName: string := "Please enter a medicine name."
  const NeedTimeOfDay: string := "Please select at least one time of day."
  const NeedItemName: string := "Please enter an item name."

  /** handleAddReminder: a family and a title are needed; the date defaults
      to today and the time to noon, and the reminder starts and ends then. */
  function AddReminder(familyId: Option<string>, form: ReminderForm, today: string): (r: Submission<ReminderRequest>)
    ensures r.Rejected? <==> !HasFamily(familyId) || Blank(form.title)
    ensures r.Rejected? ==> r.reason == NeedReminderTitle
    ensures r.Accepted? ==>
              var at := OrDefault(form.date, today) + "T" + OrDefault(form.time, "12:00");
              r.value == ReminderRequest(form.title, None, "Family", at, Some(at), None)
  {
    if !HasFamily(familyId) || Blank(form.title) then Rejected(NeedReminderTitle)
    else
      var dateStr := if form.date != [] then form.date else today;
      var timeStr := if form.time != [] then form.time else "12:00";
      var at := dateStr + "T" + timeStr;
      Accepted(ReminderRequest(form.title, None, "Family", at, Some(at), None))
  }

  /** handleAddChore: a family, a title and an assignee are needed; the chore
      is PENDING and due today unless a date was chosen. */
  function AddChore(familyId: Option<string>, form: ChoreForm, today: string): (r: Submission<ChoreRequest>)
    ensures r.Rejected? <==> !HasFamily(familyId) || Blank(form.title) || form.assignedTo == []
    ensures r.Rejected? ==> r.reason == NeedChoreFields
    ensures r.Accepted? ==>
              r.value == ChoreRequest(form.title, Some(form.assignedTo), form.points, OrDefault(form.dueDate, today),
                                      OrNull(form.dueTime), "PENDING")
  {
    if !HasFamily(familyId) || Blank(form.title) || form.assignedTo == [] then Rejected(NeedChoreFields)
    else
      Accepted(ChoreRequest(form.title, OrNull(form.assignedTo), form.points,
                            if form.dueDate != [] then form.dueDate else today,
                            if form.dueTime != [] then Some(form.dueTime) else None, "PENDING"))
  }

  /** handleAddMedicine: a family, a name and a ticked slot are needed; the
      times follow the slots, the stock is `parseInt || 0`, the start date
      defaults to today and the medication is active. */
  function AddMedicine(familyId: Option<string>, form: MedicineForm, today: string): (r: Submission<MedicineRequest>)
    ensures !HasFamily(familyId) || Blank(form.name) ==> r == Rejected(NeedMedicineName)
    ensures HasFamily(familyId) && !Blank(form.name) && !form.morning && !form.afternoon && !form.evening ==>
              r == Rejected(NeedTimeOfDay)
    ensures r.Accepted? ==>
              && HasFamily(familyId) && !Blank(form.name) && r.value.name == form.name
              && r.value.times == SlotTimes(form.morning, form.afternoon, form.evening) && r.value.times != []
              && r.value.inventory == InventoryOf(form.quantity)
              && r.value.startDate == Some(OrDefault(form.startDate, today))
              && r.value.endDate == OrNull(form.endDate) && r.value.active == Some(true)
  {
    if !HasFamily(familyId) || Blank(form.name) then Rejected(NeedMedicineName)
    else if !form.morning && !form.afternoon && !form.evening then Rejected(NeedTimeOfDay)
    else
      Accepted(MedicineRequest(form.name, SlotTimes(form.morning, form.afternoon, form.evening),
                               InventoryOf(form.quantity), Some(OrDefault(form.startDate, today)),
                               OrNull(form.endDate), None, Some(true)))
  }

  /** handleAddGrocery: a family and a name are needed; the item is NEEDED. */
  function AddGrocery(familyId: Option<string>, form: GroceryForm): (r: Submission<GroceryRequest>)
    ensures r.Rejected? <==> !HasFamily(familyId) || Blank(form.name)
    ensures r.Rejected? ==> r.reason == NeedItemName
    ensures r.Accepted? ==> r.value == GroceryRequest(form.name, OrNull(form.quantity), "NEEDED")
  {
    if !HasFamily(familyId) || Blank(form.name) then Rejected(NeedItemName)
    else Accepted(GroceryRequest(form.name, OrNull(form.quantity), "NEEDED"))
  }

  /** An accepted medication has one to three times, each once, in the
      order morning, afternoon, evening. */
  lemma AddedMedicineTimes(familyId: Option<string>, form: MedicineForm, today: string)
    requires AddMedicine(familyId, form, today).Accepted?
    ensures var times := AddMedicine(familyId, form, today).value.times;
            && 1 <= |times| <= 3
            && (forall i, j :: 0 <= i < j < |times| ==> Text.StrLess(times[i], times[j]))
            && (Morning in times <==> form.morning) && (Afternoon in times <==> form.afternoon)
            && (Evening in times <==> form.evening)
  {
    SlotTimesListed(form.morning, form.afternoon, form.evening);
  }

  // ---------------------------------------------------------------------
  // The dose buttons
  // ---------------------------------------------------------------------

  /** handleDoseClick: a dose already taken is only announced; otherwise a
      log for it, taken now, is added. */
  function DoseClick(logs: seq<Log>, medicineId: string, scheduledTime: string, alreadyTaken: bool,
                     nowDay: Option<int>): seq<Log>
  {
    if alreadyTaken then logs else logs + [Log(medicineId, scheduledTime, nowDay)]
  }

  /** A click on a dose not yet taken today marks it taken, and the taken
      state of every other dose stays as it was. */
  lemma DoseClickMarksTaken(logs: seq<Log>, medicineId: string, scheduledTime: string, alreadyTaken: bool,
                            today: int, otherId: string, otherTime: string)
    requires alreadyTaken == DoseTaken(logs, medicineId, scheduledTime, today)
    ensures var after := DoseClick(logs, medicineId, scheduledTime, alreadyTaken, Some(today));
            && DoseTaken(after, medicineId, scheduledTime, today)
            && ((otherId, otherTime) != (medicineId, scheduledTime) ==>
                  DoseTaken(after, otherId, otherTime, today) == DoseTaken(logs, otherId, otherTime, today))
  {
    if !alreadyTaken {
      var l := Log(medicineId, scheduledTime, Some(today));
      LoggingMarksTaken(logs, l, medicineId, scheduledTime, today);
      LoggingMarksTaken(logs, l, otherId, otherTime, today);
    }
  }
}

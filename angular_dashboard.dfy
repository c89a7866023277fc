/**
 * The Angular dashboard component: the chore leaderboard it tallies from
 * the completed chores, the smart-input box, and the dose buttons. Its
 * schedule is the TodaySchedule module with the Angular flavour.
 */
module DashboardComponent {
  import opened Wrappers
  import opened Seqs
  import opened Sorting
  import opened Json
  import opened Forms
  import opened Medicine
  import opened TodaySchedule
  import opened ChoresPage
  import opened ChoresScreen
  import DashboardPage
  import AiScheduleRoute

  // ---------------------------------------------------------------------
  // calculateLeaderboard
  // ---------------------------------------------------------------------

  /** A leaderboard row. */
  datatype Entry = Entry(userId: string, userName: string, points: int)

  /** A map value: the name and the points so far. */
  datatype Tally = Tally(name: string, points: int)

  /** The chores the tally reads: completed and assigned to someone. */
  predicate Counted(c: Chore) { c.status == Completed && c.assignedTo != [] }

  /** The map's keys in insertion order: the assignee of each counted
      chore, where its first counted chore puts it. */
  function FirstSeen(chores: seq<Chore>): seq<string>
    decreases |chores|
  {
    if chores == [] then []
    else
      var keys := FirstSeen(chores[..|chores| - 1]);
      var c := chores[|chores| - 1];
      if Counted(c) && c.assignedTo !in keys then keys + [c.assignedTo] else keys
  }

  /** The keys are the assignees of the counted chores, each once. */
  lemma {:induction false} FirstSeenKeys(chores: seq<Chore>)
    ensures Distinct(FirstSeen(chores))
    ensures forall i :: 0 <= i < |chores| && Counted(chores[i]) ==> chores[i].assignedTo in FirstSeen(chores)
    ensures forall k :: 0 <= k < |FirstSeen(chores)| ==>
              exists i :: 0 <= i < |chores| && Counted(chores[i]) && chores[i].assignedTo == FirstSeen(chores)[k]
    decreases |chores|
  {
    if chores != [] {
      var init := chores[..|chores| - 1];
      var c := chores[|chores| - 1];
      FirstSeenKeys(init);
      var keys := FirstSeen(init);
      assert forall i :: 0 <= i < |init| ==> init[i] == chores[i];
      var r := FirstSeen(chores);
      forall k | 0 <= k < |r|
        ensures exists i :: 0 <= i < |chores| && Counted(chores[i]) && chores[i].assignedTo == r[k]
      {
        if k < |keys| {
          assert r[k] == keys[k];
          var i :| 0 <= i < |init| && Counted(init[i]) && init[i].assignedTo == keys[k];
          assert chores[i] == init[i];
        } else {
          assert Counted(chores[|chores| - 1]) && r[k] == c.assignedTo;
        }
      }
    }
  }

  /** `member?.name || 'Unknown'`. */
  function NameOf(members: seq<Member>, id: string): (r: string)
    ensures FindMember(members, id).Some? && FindMember(members, id).value.name != [] ==>
              r == FindMember(members, id).value.name
    ensures FindMember(members, id).None? ==> r == "Unknown"
  {
    match FindMember(members, id)
    case None => "Unknown"
    case Some(m) => OrDefault(m.name, "Unknown")
  }

  function EntryFor(chores: seq<Chore>, members: seq<Member>, id: string): Entry
  {
    Entry(id, NameOf(members, id), Earned(chores, id))
  }

  /** `Array.from(pointsMap.entries())` mapped to rows, in key order. */
  function Entries(chores: seq<Chore>, members: seq<Member>): seq<Entry>
  {
    Map(FirstSeen(chores), (id: string) => EntryFor(chores, members, id))
  }

  /** The comparator `b.points - a.points`. */
  predicate MoreEntryPoints(a: Entry, b: Entry) { a.points > b.points }

  /** The board: the entries by points descending, at most five. */
  function Leaderboard(chores: seq<Chore>, members: seq<Member>): seq<Entry>
  {
    Take(SortWith(Entries(chores, members), MoreEntryPoints), 5)
  }

  /** Sorting by points leaves the entries in descending order. */
  lemma ByPointsSorted(entries: seq<Entry>)
    ensures SortedBy(SortWith(entries, MoreEntryPoints), MoreEntryPoints)
  {
    assert StrictWeak(MoreEntryPoints);
    SortWithSorted(entries, MoreEntryPoints);
  }

  /** An entry left off the top five has no more points than any on it. */
  lemma ByPointsTopIsMaximal(entries: seq<Entry>, x: Entry, y: Entry)
    requires x in Take(SortWith(entries, MoreEntryPoints), 5)
    requires y in entries && y !in Take(SortWith(entries, MoreEntryPoints), 5)
    ensures x.points >= y.points
  {
    assert StrictWeak(MoreEntryPoints);
    TopIsMaximal(entries, MoreEntryPoints, 5, x, y);
  }

  /** Each entry is its key's name and points, and no entry repeats. */
  lemma EntriesFacts(chores: seq<Chore>, members: seq<Member>)
    ensures var entries := Entries(chores, members);
            && (forall i :: 0 <= i < |entries| ==>
                  entries[i] == EntryFor(chores, members, entries[i].userId) && entries[i].userId in FirstSeen(chores))
            && Distinct(entries)
  {
    var entries := Entries(chores, members);
    var ids := FirstSeen(chores);
    FirstSeenKeys(chores);
    forall i | 0 <= i < |entries|
      ensures entries[i] == EntryFor(chores, members, entries[i].userId) && entries[i].userId in ids
    {
      assert entries[i] == EntryFor(chores, members, ids[i]);
    }
    forall j, k | 0 <= j < k < |entries| ensures entries[j] != entries[k] {
      assert entries[j].userId == ids[j] && entries[k].userId == ids[k];
    }
  }

  /** The same holds of the sorted entries, which are in descending order. */
  lemma SortedEntriesFacts(chores: seq<Chore>, members: seq<Member>)
    ensures var sorted := SortWith(Entries(chores, members), MoreEntryPoints);
            && (forall i :: 0 <= i < |sorted| ==>
                  sorted[i] == EntryFor(chores, members, sorted[i].userId) && sorted[i].userId in FirstSeen(chores))
            && Distinct(sorted)
            && (forall j, k :: 0 <= j < k < |sorted| ==> sorted[j].points >= sorted[k].points)
  {
    var entries := Entries(chores, members);
    var sorted := SortWith(entries, MoreEntryPoints);
    EntriesFacts(chores, members);
    ByPointsSorted(entries);
    PermutationKeepsDistinct(entries, sorted);
    forall i | 0 <= i < |sorted|
      ensures sorted[i] == EntryFor(chores, members, sorted[i].userId) && sorted[i].userId in FirstSeen(chores)
    {
      assert sorted[i] in multiset(entries);
      var t :| 0 <= t < |entries| && entries[t] == sorted[i];
    }
  }

  /** The board has at most five rows, by points descending, one per
      assignee of a counted chore, each with the points of that assignee's
      completed chores and its member's name. */
  lemma LeaderboardRanked(chores: seq<Chore>, members: seq<Member>)
    ensures var r := Leaderboard(chores, members);
            && |r| <= 5
            && (forall j, k :: 0 <= j < k < |r| ==> r[j].points >= r[k].points)
            && (forall j, k :: 0 <= j < k < |r| ==> r[j].userId != r[k].userId)
            && (forall j :: 0 <= j < |r| ==> r[j] == EntryFor(chores, members, r[j].userId))
            && (forall j :: 0 <= j < |r| ==>
                  exists i :: 0 <= i < |chores| && Counted(chores[i]) && chores[i].assignedTo == r[j].userId)
  {
    LeaderboardOrdered(chores, members);
    LeaderboardRows(chores, members);
  }

  lemma LeaderboardOrdered(chores: seq<Chore>, members: seq<Member>)
    ensures var r := Leaderboard(chores, members);
            && |r| <= 5
            && (forall j, k :: 0 <= j < k < |r| ==> r[j].points >= r[k].points)
            && (forall j, k :: 0 <= j < k < |r| ==> r[j].userId != r[k].userId)
  {
    var sorted := SortWith(Entries(chores, members), MoreEntryPoints);
    var r := Leaderboard(chores, members);
    SortedEntriesFacts(chores, members);
    assert forall j :: 0 <= j < |r| ==> r[j] == sorted[j];
    forall j, k | 0 <= j < k < |r| ensures r[j].userId != r[k].userId {
      assert sorted[j] != sorted[k];
    }
  }

  lemma LeaderboardRows(chores: seq<Chore>, members: seq<Member>)
    ensures var r := Leaderboard(chores, members);
            && (forall j :: 0 <= j < |r| ==> r[j] == EntryFor(chores, members, r[j].userId))
            && (forall j :: 0 <= j < |r| ==>
                  exists i :: 0 <= i < |chores| && Counted(chores[i]) && chores[i].assignedTo == r[j].userId)
  {
    var sorted := SortWith(Entries(chores, members), MoreEntryPoints);
    var r := Leaderboard(chores, members);
    SortedEntriesFacts(chores, members);
    FirstSeenKeys(chores);
    forall j | 0 <= j < |r|
      ensures r[j] == EntryFor(chores, members, r[j].userId)
      ensures exists i :: 0 <= i < |chores| && Counted(chores[i]) && chores[i].assignedTo == r[j].userId
    {
      assert r[j] == sorted[j];
      var ids := FirstSeen(chores);
      var k :| 0 <= k < |ids| && ids[k] == r[j].userId;
    }
  }

  /** The assignee of a counted chore is on the board, unless the board is
      full with rows of at least as many points. */
  lemma LeaderboardTopFive(chores: seq<Chore>, members: seq<Member>, i: nat)
    requires i < |chores| && Counted(chores[i])
    ensures var r := Leaderboard(chores, members);
            var id := chores[i].assignedTo;
            (exists j :: 0 <= j < |r| && r[j].userId == id)
            || (|r| == 5 && forall j :: 0 <= j < |r| ==> r[j].points >= Earned(chores, id))
  {
    var e := EntryFor(chores, members, chores[i].assignedTo);
    CountedHasEntry(chores, members, i);
    var r := Leaderboard(chores, members);
    if e in r {
      var j :| 0 <= j < |r| && r[j] == e;
    } else {
      OffBoardMeansFull(Entries(chores, members), e);
    }
  }

  /** The assignee of a counted chore has an entry. */
  lemma CountedHasEntry(chores: seq<Chore>, members: seq<Member>, i: nat)
    requires i < |chores| && Counted(chores[i])
    ensures EntryFor(chores, members, chores[i].assignedTo) in Entries(chores, members)
  {
    var ids := FirstSeen(chores);
    FirstSeenKeys(chores);
    var t :| 0 <= t < |ids| && ids[t] == chores[i].assignedTo;
    assert Entries(chores, members)[t] == EntryFor(chores, members, ids[t]);
  }

  /** An entry left off the board means five rows, none with fewer points. */
  lemma OffBoardMeansFull(entries: seq<Entry>, e: Entry)
    requires e in entries && e !in Take(SortWith(entries, MoreEntryPoints), 5)
    ensures var r := Take(SortWith(entries, MoreEntryPoints), 5);
            |r| == 5 && forall j :: 0 <= j < |r| ==> r[j].points >= e.points
  {
    var sorted := SortWith(entries, MoreEntryPoints);
    var r := Take(sorted, 5);
    forall j | 0 <= j < |r| ensures r[j].points >= e.points {
      ByPointsTopIsMaximal(entries, r[j], e);
    }
    assert e in multiset(entries);
    assert e in sorted;
    TakeMissesFull(sorted, 5, e);
  }

  /** The map's keys are the listed keys, none of them empty. */
  ghost predicate DomainInv(keys: seq<string>, tallies: map<string, Tally>)
  {
    && (forall id :: id in tallies <==> id in keys)
    && [] !in tallies
  }

  /** Each key holds its name and its points so far; nobody else has points. */
  ghost predicate ValuesInv(done: seq<Chore>, members: seq<Member>, tallies: map<string, Tally>)
  {
    && (forall id :: id in tallies ==> tallies[id] == Tally(NameOf(members, id), Earned(done, id)))
    && (forall id :: id != [] && id !in tallies ==> Earned(done, id) == 0)
  }

  /** What the map holds after some of the chores. */
  ghost predicate TallyInv(done: seq<Chore>, members: seq<Member>, keys: seq<string>, tallies: map<string, Tally>)
  {
    keys == FirstSeen(done) && DomainInv(keys, tallies) && ValuesInv(done, members, tallies)
  }

  /** `pointsMap.set(id, { name, points: current.points + chore.points })`:
      the assignee's entry with the chore's points added to what it held. */
  function Bumped(tallies: map<string, Tally>, members: seq<Member>, c: Chore): map<string, Tally>
  {
    tallies[c.assignedTo := Tally(NameOf(members, c.assignedTo),
                                  (if c.assignedTo in tallies then tallies[c.assignedTo].points else 0)
                                  + ChorePoints(c))]
  }

  lemma DomainStep(keys: seq<string>, tallies: map<string, Tally>, members: seq<Member>, c: Chore)
    requires DomainInv(keys, tallies) && Counted(c)
    ensures DomainInv(if c.assignedTo in keys then keys else keys + [c.assignedTo], Bumped(tallies, members, c))
  {
  }

  lemma ValuesStep(done: seq<Chore>, members: seq<Member>, tallies: map<string, Tally>, c: Chore)
    requires ValuesInv(done, members, tallies) && [] !in tallies
    ensures ValuesInv(done + [c], members, if Counted(c) then Bumped(tallies, members, c) else tallies)
  {
    if Counted(c) {
      BumpedValues(done, members, tallies, c);
    } else {
      forall id | id in tallies ensures tallies[id] == Tally(NameOf(members, id), Earned(done + [c], id)) {
        EarnedSnoc(done, c, id);
      }
      forall id | id != [] && id !in tallies ensures Earned(done + [c], id) == 0 {
        EarnedSnoc(done, c, id);
      }
    }
  }

  lemma BumpedValues(done: seq<Chore>, members: seq<Member>, tallies: map<string, Tally>, c: Chore)
    requires ValuesInv(done, members, tallies) && [] !in tallies && Counted(c)
    ensures ValuesInv(done + [c], members, Bumped(tallies, members, c))
  {
    var bumped := Bumped(tallies, members, c);
    forall id | id in bumped ensures bumped[id] == Tally(NameOf(members, id), Earned(done + [c], id)) {
      EarnedSnoc(done, c, id);
      if id != c.assignedTo {
        assert bumped[id] == tallies[id];
      }
    }
    forall id | id != [] && id !in bumped ensures Earned(done + [c], id) == 0 {
      EarnedSnoc(done, c, id);
    }
  }

  /** One chore of the forEach: a counted chore adds its points to its
      assignee's value (a new key goes last), any other leaves the map. */
  lemma TallyStep(done: seq<Chore>, c: Chore, members: seq<Member>, keys: seq<string>, tallies: map<string, Tally>)
    requires TallyInv(done, members, keys, tallies)
    ensures Counted(c) ==>
              TallyInv(done + [c], members, if c.assignedTo in keys then keys else keys + [c.assignedTo],
                       Bumped(tallies, members, c))
    ensures !Counted(c) ==> TallyInv(done + [c], members, keys, tallies)
  {
    assert (done + [c])[..|done|] == done;
    ValuesStep(done, members, tallies, c);
    if Counted(c) {
      DomainStep(keys, tallies, members, c);
    }
  }

  /** `Array.from(pointsMap.entries())` mapped to rows, in key order. */
  function TallyRows(keys: seq<string>, tallies: map<string, Tally>): (r: seq<Entry>)
    requires forall id :: id in keys ==> id in tallies
    ensures |r| == |keys|
    ensures forall k :: 0 <= k < |keys| ==> r[k].userId == keys[k] && r[k].points == tallies[keys[k]].points
  {
    seq(|keys|, k requires 0 <= k < |keys| => Entry(keys[k], tallies[keys[k]].name, tallies[keys[k]].points))
  }

  /** The finished map's rows are the entries. */
  lemma TallyEntries(chores: seq<Chore>, members: seq<Member>, keys: seq<string>, tallies: map<string, Tally>)
    requires TallyInv(chores, members, keys, tallies)
    ensures forall id :: id in keys ==> id in tallies
    ensures TallyRows(keys, tallies) == Entries(chores, members)
  {
  }

  // ---------------------------------------------------------------------
  // The smart input
  // ---------------------------------------------------------------------

  /** What the result panel shows; a failed request shows no items. */
  datatype SmartResult = SmartResult(success: bool, message: string, items: Option<seq<Json>>)

  const SmartFailure: string := "Failed to process your request. Please try again."

  /** The panel after the request: the reply's message and items, a success
      exactly when it created something; the fixed failure otherwise. */
  function SmartResultOf(reply: Option<AiScheduleRoute.ScheduleResponse>): (r: SmartResult)
    ensures r.success <==> reply.Some? && DashboardPage.TotalCreated(reply.value) > 0
    ensures reply.None? ==> r == SmartResult(false, SmartFailure, None)
    ensures reply.Some? ==> r.message == reply.value.message && r.items == Some(reply.value.items)
  {
    match reply
    case None => SmartResult(false, SmartFailure, None)
    case Some(data) => SmartResult(DashboardPage.TotalCreated(data) > 0, data.message, Some(data.items))
  }

  /** The component and its web twin agree on success and message. */
  lemma SmartResultsAgree(reply: Option<AiScheduleRoute.ScheduleResponse>)
    requires reply.Some?
    ensures SmartResultOf(reply).success == DashboardPage.SmartResultOf(reply).success
    ensures SmartResultOf(reply).message == DashboardPage.SmartResultOf(reply).message
  {
  }

  /** calculateLeaderboard's forEach and its `Array.from`: the points of
      each assignee of a completed chore, keyed in first-seen order. */
  method TallyChores(chores: seq<Chore>, members: seq<Member>) returns (entries: seq<Entry>)
    ensures entries == Entries(chores, members)
  {
    var keys: seq<string> := [];
    var tallies: map<string, Tally> := map[];
    for i := 0 to |chores|
      invariant TallyInv(chores[..i], members, keys, tallies)
    {
      var c := chores[i];
      assert chores[..i + 1] == chores[..i] + [c];
      TallyStep(chores[..i], c, members, keys, tallies);
      if c.status == Completed && c.assignedTo != [] {
        var id := c.assignedTo;
        tallies := Bumped(tallies, members, c);
        if id !in keys {
          keys := keys + [id];
        }
      }
    }
    assert chores[..|chores|] == chores;
    TallyEntries(chores, members, keys, tallies);
    entries := TallyRows(keys, tallies);
  }

  // ---------------------------------------------------------------------
  // The component's state
  // ---------------------------------------------------------------------

  class Dashboard {
    var familyId: Option<string>
    var members: seq<Member>
    var medicineLogs: seq<Log>
    var leaderboardEntries: seq<Entry>
    var smartInputText: string
    var isProcessing: bool
    var lastResult: Option<SmartResult>

    constructor (familyId: Option<string>)
      ensures this.familyId == familyId && members == [] && medicineLogs == [] && leaderboardEntries == []
      ensures smartInputText == [] && !isProcessing && lastResult.None?
    {
      this.familyId := familyId;
      members, medicineLogs, leaderboardEntries := [], [], [];
      smartInputText := [];
      isProcessing := false;
      lastResult := None;
    }

    /** calculateLeaderboard: a map from assignee to name and points, filled
        chore by chore, then its entries sorted and cut to five. */
    method CalculateLeaderboard(chores: seq<Chore>)
      modifies this
      ensures leaderboardEntries == Leaderboard(chores, members)
      ensures familyId == old(familyId) && members == old(members) && medicineLogs == old(medicineLogs)
      ensures smartInputText == old(smartInputText) && isProcessing == old(isProcessing)
      ensures lastResult == old(lastResult)
    {
      var entries := TallyChores(chores, members);
      leaderboardEntries := Take(SortWith(entries, MoreEntryPoints), 5);
    }

    /** processSmartInput, with the reply (None when the request failed):
        nothing happens for blank text or while a request runs; otherwise
        the panel shows the result and the text is cleared only when
        something was created. */
    method ProcessSmartInput(reply: Option<AiScheduleRoute.ScheduleResponse>)
      modifies this
      ensures Blank(old(smartInputText)) || old(isProcessing) ==>
                smartInputText == old(smartInputText) && isProcessing == old(isProcessing)
                && lastResult == old(lastResult)
      ensures !Blank(old(smartInputText)) && !old(isProcessing) ==>
                && lastResult == Some(SmartResultOf(reply)) && !isProcessing
                && smartInputText == (if SmartResultOf(reply).success then [] else old(smartInputText))
      ensures familyId == old(familyId) && members == old(members) && medicineLogs == old(medicineLogs)
      ensures leaderboardEntries == old(leaderboardEntries)
    {
      if Blank(smartInputText) || isProcessing {
        return;
      }
      isProcessing := true;
      lastResult := None;
      match reply {
        case None =>
          lastResult := Some(SmartResult(false, SmartFailure, None));
        case Some(data) =>
          var totalCreated := data.choresCreated + data.remindersCreated + data.medicationsCreated
                              + data.groceriesCreated;
          lastResult := Some(SmartResult(totalCreated > 0, data.message, Some(data.items)));
          if totalCreated > 0 {
            smartInputText := [];
          }
      }
      isProcessing := false;
    }

    /** The timer set after a reply: it hides the panel. */
    method ResultExpired()
      modifies this
      ensures lastResult.None?
      ensures familyId == old(familyId) && members == old(members) && medicineLogs == old(medicineLogs)
      ensures leaderboardEntries == old(leaderboardEntries) && smartInputText == old(smartInputText)
      ensures isProcessing == old(isProcessing)
    {
      lastResult := None;
    }

    /** handleDoseClick: nothing for a dose already taken or without a
        family; otherwise the log posted, taken now, is among the logs the
        reload reads. */
    method DoseClick(medicineId: string, scheduledTime: string, alreadyTaken: bool, nowDay: Option<int>)
      modifies this
      ensures alreadyTaken || !HasFamily(familyId) ==> medicineLogs == old(medicineLogs)
      ensures HasFamily(familyId) ==>
                medicineLogs == DashboardPage.DoseClick(old(medicineLogs), medicineId, scheduledTime, alreadyTaken, nowDay)
      ensures familyId == old(familyId) && members == old(members) && leaderboardEntries == old(leaderboardEntries)
      ensures smartInputText == old(smartInputText) && isProcessing == old(isProcessing)
      ensures lastResult == old(lastResult)
    {
      if alreadyTaken || !HasFamily(familyId) {
        return;
      }
      medicineLogs := medicineLogs + [Log(medicineId, scheduledTime, nowDay)];
    }
  }
}

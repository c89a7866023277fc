/**
 * The web chores page: creating a chore, the check box that flips a
 * chore's status, the pending and completed lists, and the children's
 * leaderboard by their stored chorePoints.
 */
module ChoresPage {
  import opened Wrappers
  import opened Seqs
  import opened Sorting
  import opened Forms
  import opened TodaySchedule
  import opened DashboardWidgets

  const Completed: string := "COMPLETED"
  const Pending: string := "PENDING"

  /** toggleChore's new status: a COMPLETED chore goes back to PENDING and
      any other status, a missing one included, becomes COMPLETED. */
  function ToggledStatus(status: string): (r: string)
    ensures r == Completed <==> status != Completed
    ensures r == Pending <==> status == Completed
  {
    if status == Completed then Pending else Completed
  }

  /** Toggling twice settles on one of the two statuses the button knows:
      back where it was for PENDING and COMPLETED, PENDING for any other. */
  lemma ToggleTwice(status: string)
    ensures ToggledStatus(ToggledStatus(status)) == if status == Completed then Completed else Pending
    ensures status == Pending || status == Completed ==> ToggledStatus(ToggledStatus(status)) == status
  {
  }

  predicate IsCompleted(c: Chore) { c.status == Completed }
  predicate IsPending(c: Chore) { c.status != Completed }

  /** The "To Do" list. */
  function PendingChores(chores: seq<Chore>): (r: seq<Chore>)
    ensures forall i :: 0 <= i < |r| ==> r[i] in chores && r[i].status != Completed
    ensures forall i :: 0 <= i < |chores| && chores[i].status != Completed ==> chores[i] in r
  {
    Filter(chores, IsPending)
  }

  /** The "Completed" list. */
  function CompletedChores(chores: seq<Chore>): (r: seq<Chore>)
    ensures forall i :: 0 <= i < |r| ==> r[i] in chores && r[i].status == Completed
    ensures forall i :: 0 <= i < |chores| && chores[i].status == Completed ==> chores[i] in r
  {
    Filter(chores, IsCompleted)
  }

  /** Every chore is in exactly one of the two lists, as often as it occurs. */
  lemma ListsPartitionChores(chores: seq<Chore>)
    ensures multiset(PendingChores(chores)) + multiset(CompletedChores(chores)) == multiset(chores)
    ensures |PendingChores(chores)| + |CompletedChores(chores)| == |chores|
  {
    FilterPartition(chores, IsPending, IsCompleted);
  }

  /** A click on a chore of either list moves it to the other one. */
  lemma ToggleMovesChore(c: Chore)
    ensures IsCompleted(c.(status := ToggledStatus(c.status))) <==> IsPending(c)
    ensures IsPending(c.(status := ToggledStatus(c.status))) <==> IsCompleted(c)
  {
  }

  /** handleCreateChore: a family and a non-blank title are needed; the
      title is sent untrimmed, an empty assignee or time is null, and the
      chore is PENDING. */
  function CreateChore(familyId: Option<string>, form: ChoreForm): (r: Submission<ChoreRequest>)
    ensures r.Rejected? <==> !HasFamily(familyId) || Blank(form.title)
    ensures r.Rejected? ==> r.reason == "Please enter a chore title"
    ensures r.Accepted? ==>
              && r.value.title == form.title && r.value.points == form.points && r.value.dueDate == form.dueDate
              && r.value.assignedTo == OrNull(form.assignedTo) && r.value.dueTime == OrNull(form.dueTime)
              && r.value.status == Pending
  {
    if !HasFamily(familyId) || Blank(form.title) then Rejected("Please enter a chore title")
    else Accepted(ChoreRequest(form.title, OrNull(form.assignedTo), form.points, form.dueDate,
                               OrNull(form.dueTime), Pending))
  }

  /** The weekly leaderboard: the children sorted by `chorePoints || 0`, most first. */
  function ChildBoard(members: seq<Member>): seq<Member>
  {
    SortWith(Filter(members, IsChild), MorePoints)
  }

  /** The board lists every child once and nobody else, by points descending,
      children with equal points in the order of the member list. */
  lemma ChildBoardRanked(members: seq<Member>)
    ensures multiset(ChildBoard(members)) == multiset(Filter(members, IsChild))
    ensures forall j, k :: 0 <= j < k < |ChildBoard(members)| ==>
              PointsOf(ChildBoard(members)[j]) >= PointsOf(ChildBoard(members)[k])
  {
    assert StrictWeak(MorePoints);
    SortWithSorted(Filter(members, IsChild), MorePoints);
  }

  /** The dashboard widget's board is this board whenever the family has a child. */
  lemma WidgetShowsChildBoard(members: seq<Member>, i: nat)
    requires i < |members| && members[i].isChild
    ensures Leaderboard(members) == ChildBoard(members)
  {
    assert members[i] in Filter(members, IsChild);
  }
}

/**
 * The mobile chores screen: the add form, the leaderboard computed from the
 * completed chores themselves (not from the stored chorePoints), and the
 * short completed list. The check box and the two lists are the web page's.
 */
module ChoresScreen {
  import opened Wrappers
  import opened Seqs
  import opened Sorting
  import opened JsNum
  import opened Forms
  import opened TodaySchedule
  import opened DashboardWidgets
  import opened ChoresPage

  /** The screen's form: the points are the text of a picker. */
  datatype ScreenChoreForm = ScreenChoreForm(title: string, assignedTo: string, points: string)

  /** `parseInt(points) || 10`: NaN and 0 both give 10. */
  function PointsOfText(points: string): (r: int)
    ensures ParseInt(points).None? ==> r == 10
    ensures ParseInt(points).Some? ==> r == if ParseInt(points).value == 0 then 10 else ParseInt(points).value
    ensures r != 0
  {
    match ParseInt(points)
    case None => 10
    case Some(v) => if v == 0 then 10 else v
  }

  /** handleAddChore: nothing happens for a blank title; the chore is due on
      today's local date and is PENDING, with no due time. */
  function AddChore(form: ScreenChoreForm, today: string): (r: Submission<ChoreRequest>)
    ensures r.Rejected? <==> Blank(form.title)
    ensures r.Rejected? ==> r.reason == []
    ensures r.Accepted? ==>
              && r.value.title == form.title && r.value.assignedTo == OrNull(form.assignedTo)
              && r.value.points == PointsOfText(form.points) && r.value.dueDate == today
              && r.value.dueTime == None && r.value.status == Pending
  {
    if Blank(form.title) then Rejected([])
    else Accepted(ChoreRequest(form.title, OrNull(form.assignedTo), PointsOfText(form.points), today, None, Pending))
  }

  /** `c.points || 0`. */
  function ChorePoints(c: Chore): int
  {
    c.points.GetOr(0)
  }

  /** The chores a child has completed. */
  function EarnedBy(chores: seq<Chore>, id: string): (r: seq<Chore>)
    ensures forall i :: 0 <= i < |r| ==> r[i] in chores && r[i].assignedTo == id && r[i].status == Completed
    ensures forall i :: 0 <= i < |chores| && chores[i].assignedTo == id && chores[i].status == Completed
              ==> chores[i] in r
  {
    Filter(chores, (c: Chore) => c.assignedTo == id && c.status == Completed)
  }

  /** The reduce over the completed chores. */
  function Earned(chores: seq<Chore>, id: string): int
  {
    SumOf(EarnedBy(chores, id), ChorePoints)
  }

  /** A chore adds its points to its assignee's total exactly when it is
      completed; every other chore leaves every total as it was. */
  lemma EarnedSnoc(chores: seq<Chore>, c: Chore, id: string)
    ensures Earned(chores + [c], id) ==
              Earned(chores, id) + if c.assignedTo == id && c.status == Completed then ChorePoints(c) else 0
  {
    var before := EarnedBy(chores, id);
    assert (chores + [c])[..|chores|] == chores;
    assert EarnedBy(chores + [c], id) == before + if c.assignedTo == id && c.status == Completed then [c] else [];
    assert (before + [c])[..|before|] == before;
    if c.assignedTo == id && c.status == Completed {
      assert SumOf(before + [c], ChorePoints) == SumOf(before, ChorePoints) + ChorePoints(c);
    } else {
      assert before + [] == before;
    }
  }

  /** With no negative points on any chore, nobody's total is negative. */
  lemma EarnedNonNegative(chores: seq<Chore>, id: string)
    requires forall i :: 0 <= i < |chores| ==> ChorePoints(chores[i]) >= 0
    ensures Earned(chores, id) >= 0
  {
    var earned := EarnedBy(chores, id);
    forall i | 0 <= i < |earned| ensures ChorePoints(earned[i]) >= 0 {
      var j :| 0 <= j < |chores| && chores[j] == earned[i];
    }
    SumOfNonNegative(earned, ChorePoints);
  }

  /** A leaderboard row: the child and the points summed from the chores. */
  datatype Standing = Standing(member: Member, points: int)

  predicate MoreEarned(a: Standing, b: Standing) { a.points > b.points }

  /** The children, each with their earned points, sorted most first. */
  function ScreenBoard(members: seq<Member>, chores: seq<Chore>): seq<Standing>
  {
    SortWith(Map(Filter(members, IsChild), (m: Member) => Standing(m, Earned(chores, m.id))), MoreEarned)
  }

  /** The board has one row per child, each carrying the points of that
      child's completed chores. */
  lemma ScreenBoardRows(members: seq<Member>, chores: seq<Chore>)
    ensures var board := ScreenBoard(members, chores);
            && |board| == |Filter(members, IsChild)|
            && (forall i :: 0 <= i < |board| ==>
                  board[i].member in members && board[i].member.isChild
                  && board[i].points == Earned(chores, board[i].member.id))
  {
    var rows := Map(Filter(members, IsChild), (m: Member) => Standing(m, Earned(chores, m.id)));
    var board := SortWith(rows, MoreEarned);
    forall i | 0 <= i < |board|
      ensures board[i].member in members && board[i].member.isChild
      ensures board[i].points == Earned(chores, board[i].member.id)
    {
      assert board[i] in multiset(rows);
      var j :| 0 <= j < |rows| && rows[j] == board[i];
    }
  }

  /** The board is ranked by points, descending. */
  lemma ScreenBoardRanked(members: seq<Member>, chores: seq<Chore>)
    ensures var board := ScreenBoard(members, chores);
            forall j, k :: 0 <= j < k < |board| ==> board[j].points >= board[k].points
  {
    var rows := Map(Filter(members, IsChild), (m: Member) => Standing(m, Earned(chores, m.id)));
    assert StrictWeak(MoreEarned);
    SortWithSorted(rows, MoreEarned);
  }

  /** Every child of the family has a row. */
  lemma EveryChildRanked(members: seq<Member>, chores: seq<Chore>, i: nat)
    requires i < |members| && members[i].isChild
    ensures exists k :: 0 <= k < |ScreenBoard(members, chores)| && ScreenBoard(members, chores)[k].member == members[i]
  {
    var children := Filter(members, IsChild);
    var rows := Map(children, (m: Member) => Standing(m, Earned(chores, m.id)));
    var board := SortWith(rows, MoreEarned);
    var j :| 0 <= j < |children| && children[j] == members[i];
    assert rows[j] in multiset(board);
    var k :| 0 <= k < |board| && board[k] == rows[j];
    assert board[k].member == members[i];
    assert board == ScreenBoard(members, chores);
  }

  /** The screen shows the first five completed chores. */
  function CompletedShown(chores: seq<Chore>): (r: seq<Chore>)
    ensures |r| <= 5 && |r| <= |CompletedChores(chores)| && r == CompletedChores(chores)[..|r|]
    ensures |CompletedChores(chores)| >= 5 ==> |r| == 5
    ensures forall i :: 0 <= i < |r| ==> r[i].status == Completed
  {
    Take(CompletedChores(chores), 5)
  }
}

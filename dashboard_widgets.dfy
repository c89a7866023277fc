/**
 * The computations of the web dashboard's widgets: the medication
 * tracker's counts and progress, the upcoming reminders, the grocery
 * summary, the chore leaderboard, and the default widget layout. Today's
 * schedule widget is the TodaySchedule module with the web flavour.
 */
module DashboardWidgets {
  import opened Wrappers
  import opened Seqs
  import opened Sorting
  import opened JsNum
  import opened Medicine
  import opened TodaySchedule
  import GroceryItems

  // ---------------------------------------------------------------------
  // MedicationTrackerWidget
  // ---------------------------------------------------------------------

  /** The tracker: the active medications, the doses they schedule today,
      how many a log marks taken, and the progress. */
  method MedicationTracker(medicines: seq<Med>, logs: seq<Log>, todayStr: string, todayStart: int)
    returns (activeCount: int, totalDoses: int, takenDoses: int, progress: int)
    ensures activeCount == |ActiveMeds(medicines, todayStr)|
    ensures totalDoses == TotalDoses(ActiveMeds(medicines, todayStr))
    ensures takenDoses == TakenDoses(ActiveMeds(medicines, todayStr), logs, todayStart)
    ensures 0 <= takenDoses <= totalDoses
    ensures progress == Progress(takenDoses, totalDoses) && 0 <= progress <= 100
  {
    var activeMeds := ActiveMeds(medicines, todayStr);
    totalDoses := 0;
    takenDoses := 0;
    for i := 0 to |activeMeds|
      invariant totalDoses == TotalDoses(activeMeds[..i])
      invariant takenDoses == TakenDoses(activeMeds[..i], logs, todayStart)
    {
      var m := activeMeds[i];
      TotalsSnoc(activeMeds, i, logs, todayStart);
      totalDoses := totalDoses + |m.times|;
      ghost var before := takenDoses;
      for j := 0 to |m.times|
        invariant takenDoses == before + TakenCount(m.(times := m.times[..j]), logs, todayStart)
      {
        assert m.times[..j + 1][..j] == m.times[..j];
        var taken := DoseTaken(logs, m.id, m.times[j], todayStart);
        if taken {
          takenDoses := takenDoses + 1;
        }
      }
      assert m.(times := m.times[..|m.times|]) == m;
    }
    assert activeMeds[..|activeMeds|] == activeMeds;
    activeCount := |activeMeds|;
    TakenWithinTotal(activeMeds, logs, todayStart);
    ProgressBounds(takenDoses, totalDoses);
    progress := if totalDoses > 0 then RoundPercent(takenDoses, totalDoses) else 0;
  }

  // ---------------------------------------------------------------------
  // UpcomingRemindersWidget
  // ---------------------------------------------------------------------

  /** A reminder with a start time no earlier than now; an Invalid Date never is. */
  predicate Upcoming(r: Reminder, now: int, parseInstant: string -> Option<int>)
  {
    r.startTime != [] && match parseInstant(r.startTime)
                         case None => false
                         case Some(t) => t >= now
  }

  /** The comparator `a.start - b.start`: strictly earlier comes first. */
  function Earlier(parseInstant: string -> Option<int>): (Reminder, Reminder) -> bool
  {
    (a: Reminder, b: Reminder) => parseInstant(a.startTime).GetOr(0) < parseInstant(b.startTime).GetOr(0)
  }

  lemma EarlierIsStrictWeak(parseInstant: string -> Option<int>)
    ensures StrictWeak(Earlier(parseInstant))
  {
  }

  function UpcomingAt(now: int, parseInstant: string -> Option<int>): Reminder -> bool
  {
    (r: Reminder) => Upcoming(r, now, parseInstant)
  }

  /** The next five reminders, soonest first. */
  function UpcomingReminders(reminders: seq<Reminder>, now: int, parseInstant: string -> Option<int>): seq<Reminder>
  {
    Take(SortWith(Filter(reminders, UpcomingAt(now, parseInstant)), Earlier(parseInstant)), 5)
  }

  /** At most five reminders, each upcoming, soonest first, and none left
      out starts before one that is shown. */
  lemma UpcomingRemindersSoonest(reminders: seq<Reminder>, now: int, parseInstant: string -> Option<int>)
    ensures var u := UpcomingReminders(reminders, now, parseInstant);
            && |u| <= 5
            && (forall k :: 0 <= k < |u| ==> u[k] in reminders && Upcoming(u[k], now, parseInstant))
            && SortedBy(u, Earlier(parseInstant))
            && (forall k, y :: 0 <= k < |u| && y in reminders && Upcoming(y, now, parseInstant) && y !in u ==>
                  parseInstant(u[k].startTime).value <= parseInstant(y.startTime).value)
  {
    var u := UpcomingReminders(reminders, now, parseInstant);
    ShownAreUpcoming(reminders, now, parseInstant);
    SoonestSorted(Filter(reminders, UpcomingAt(now, parseInstant)), parseInstant);
    forall k, y | 0 <= k < |u| && y in reminders && Upcoming(y, now, parseInstant) && y !in u
      ensures parseInstant(u[k].startTime).value <= parseInstant(y.startTime).value
    {
      LeftOutNotSooner(reminders, now, parseInstant, k, y);
    }
  }

  /** Each reminder shown is an upcoming reminder of the list. */
  lemma ShownAreUpcoming(reminders: seq<Reminder>, now: int, parseInstant: string -> Option<int>)
    ensures var u := UpcomingReminders(reminders, now, parseInstant);
            forall k :: 0 <= k < |u| ==> u[k] in reminders && Upcoming(u[k], now, parseInstant)
  {
    var p := UpcomingAt(now, parseInstant);
    var u := Take(SortWith(Filter(reminders, p), Earlier(parseInstant)), 5);
    assert u == UpcomingReminders(reminders, now, parseInstant);
    TopOfFilterKept(reminders, p, Earlier(parseInstant), 5);
    assert var w := Take(SortWith(Filter(reminders, p), Earlier(parseInstant)), 5);
           forall k :: 0 <= k < |w| ==> w[k] in reminders && p(w[k]);
    forall k | 0 <= k < |u| ensures u[k] in reminders && Upcoming(u[k], now, parseInstant) {
      UpcomingAtHolds(now, parseInstant, u[k]);
    }
  }

  lemma UpcomingAtHolds(now: int, parseInstant: string -> Option<int>, r: Reminder)
    requires UpcomingAt(now, parseInstant)(r)
    ensures Upcoming(r, now, parseInstant)
  {
  }

  /** One shown reminder against one upcoming reminder left out. */
  lemma LeftOutNotSooner(reminders: seq<Reminder>, now: int, parseInstant: string -> Option<int>, k: nat, y: Reminder)
    requires k < |UpcomingReminders(reminders, now, parseInstant)|
    requires Upcoming(UpcomingReminders(reminders, now, parseInstant)[k], now, parseInstant)
    requires y in reminders && Upcoming(y, now, parseInstant) && y !in UpcomingReminders(reminders, now, parseInstant)
    ensures parseInstant(UpcomingReminders(reminders, now, parseInstant)[k].startTime).value <= parseInstant(y.startTime).value
  {
    var p := UpcomingAt(now, parseInstant);
    var pool := Filter(reminders, p);
    var x := UpcomingReminders(reminders, now, parseInstant)[k];
    var i :| 0 <= i < |reminders| && reminders[i] == y;
    assert p(reminders[i]);
    assert y in pool;
    SoonestFirst(pool, parseInstant, x, y);
  }

  lemma SoonestSorted(pool: seq<Reminder>, parseInstant: string -> Option<int>)
    ensures SortedBy(Take(SortWith(pool, Earlier(parseInstant)), 5), Earlier(parseInstant))
  {
    EarlierIsStrictWeak(parseInstant);
    TopSorted(pool, Earlier(parseInstant), 5);
  }

  /** A reminder left off the five starts no earlier than one shown. */
  lemma SoonestFirst(pool: seq<Reminder>, parseInstant: string -> Option<int>, x: Reminder, y: Reminder)
    requires x in Take(SortWith(pool, Earlier(parseInstant)), 5)
    requires y in pool && y !in Take(SortWith(pool, Earlier(parseInstant)), 5)
    requires parseInstant(x.startTime).Some? && parseInstant(y.startTime).Some?
    ensures parseInstant(x.startTime).value <= parseInstant(y.startTime).value
  {
    EarlierIsStrictWeak(parseInstant);
    TopIsMaximal(pool, Earlier(parseInstant), 5, x, y);
  }

  // ---------------------------------------------------------------------
  // GrocerySummaryWidget
  // ---------------------------------------------------------------------

  predicate IsPurchased(g: GroceryItems.Item) { g.status == "PURCHASED" || g.status == "CHECKED" }
  predicate AnyItem(g: GroceryItems.Item) { true }

  /** The two counts the summary shows: NEEDED or PENDING, and PURCHASED or CHECKED. */
  function GrocerySummary(groceries: seq<GroceryItems.Item>): (int, int)
  {
    (|Filter(groceries, GroceryItems.IsNeeded)|, |Filter(groceries, IsPurchased)|)
  }

  /** No item is counted twice, so the two counts never exceed the list. */
  lemma GrocerySummaryWithinList(groceries: seq<GroceryItems.Item>)
    ensures GrocerySummary(groceries).0 + GrocerySummary(groceries).1 <= |groceries|
  {
    CountDisjoint(groceries, GroceryItems.IsNeeded, IsPurchased, AnyItem);
    CountIsFilterLength(groceries, GroceryItems.IsNeeded);
    CountIsFilterLength(groceries, IsPurchased);
    CountIsFilterLength(groceries, AnyItem);
    FilterAll(groceries, AnyItem);
  }

  /** An item that is GOT is counted in neither. */
  lemma GotCountedInNeither(groceries: seq<GroceryItems.Item>, g: GroceryItems.Item)
    requires g.status == "GOT"
    ensures g !in Filter(groceries, GroceryItems.IsNeeded) && g !in Filter(groceries, IsPurchased)
  {
    assert !GroceryItems.IsNeeded(g) && !IsPurchased(g);
  }

  // ---------------------------------------------------------------------
  // ChoreLeaderboardWidget
  // ---------------------------------------------------------------------

  /** `chorePoints || 0`. */
  function PointsOf(m: Member): int
  {
    match m.chorePoints
    case None => 0
    case Some(p) => p
  }

  /** The comparator `b.points - a.points`: more points first. */
  predicate MorePoints(a: Member, b: Member) { PointsOf(a) > PointsOf(b) }

  lemma MorePointsIsStrictWeak()
    ensures StrictWeak(MorePoints)
  {
  }

  predicate IsChild(m: Member) { m.isChild }

  /** The children by points, or the first five members when there is no child. */
  function Leaderboard(members: seq<Member>): seq<Member>
  {
    var sorted := SortWith(Filter(members, IsChild), MorePoints);
    if |sorted| > 0 then sorted else Take(members, 5)
  }

  /** With a child in the family, the board is the children, each once,
      by points descending. */
  lemma LeaderboardOfChildren(members: seq<Member>, i: nat)
    requires i < |members| && members[i].isChild
    ensures multiset(Leaderboard(members)) == multiset(Filter(members, IsChild))
    ensures forall j, k :: 0 <= j < k < |Leaderboard(members)| ==>
              PointsOf(Leaderboard(members)[j]) >= PointsOf(Leaderboard(members)[k])
  {
    var children := Filter(members, IsChild);
    assert members[i] in children;
    MorePointsIsStrictWeak();
    SortWithSorted(children, MorePoints);
  }

  /** Without a child it is the first five members. */
  lemma LeaderboardWithoutChildren(members: seq<Member>)
    requires forall i :: 0 <= i < |members| ==> !members[i].isChild
    ensures Leaderboard(members) == Take(members, 5)
  {
    CountExtremes(members, IsChild);
    CountIsFilterLength(members, IsChild);
  }

  // ---------------------------------------------------------------------
  // getDefaultWidgets
  // ---------------------------------------------------------------------

  /** A widget of the dashboard layout. */
  datatype WidgetConfig = WidgetConfig(id: string, visible: bool, position: int)

  const DefaultWidgetOrder: seq<string> := [
    "quick_actions", "todays_schedule", "medication_tracker", "chore_leaderboard",
    "grocery_summary", "upcoming_reminders", "ai_input", "family_members"
  ]

  /** Every widget's position is its index. */
  predicate Numbered(ws: seq<WidgetConfig>)
  {
    forall k :: 0 <= k < |ws| ==> ws[k].position == k
  }

  function DefaultWidgets(): seq<WidgetConfig>
  {
    seq(|DefaultWidgetOrder|, k requires 0 <= k < |DefaultWidgetOrder| => WidgetConfig(DefaultWidgetOrder[k], true, k))
  }

  /** The default layout holds the eight widgets, each once, all visible, numbered in order. */
  lemma DefaultWidgetsLayout()
    ensures |DefaultWidgets()| == 8 && Numbered(DefaultWidgets())
    ensures forall k :: 0 <= k < 8 ==> DefaultWidgets()[k].id == DefaultWidgetOrder[k] && DefaultWidgets()[k].visible
    ensures Distinct(Map(DefaultWidgets(), (w: WidgetConfig) => w.id))
  {
    var ids := Map(DefaultWidgets(), (w: WidgetConfig) => w.id);
    assert ids == DefaultWidgetOrder;
  }
}

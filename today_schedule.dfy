/**
 * Today's schedule as the web dashboard widget and the Angular dashboard
 * assemble it: today's reminders, then the medications active today with
 * each dose's taken flag and a status, then, only when "view all" is on,
 * the chores due today with their assignee's name.
 */
module TodaySchedule {
  import opened Wrappers
  import opened Seqs
  import opened Medicine
  import opened Forms

  /** A reminder, a chore and a family member as the dashboards read them;
      a missing text is "". */
  datatype Reminder = Reminder(id: string, title: string, description: string, startTime: string, isActive: Option<bool>)
  datatype Chore = Chore(id: string, title: string, status: string, assignedTo: string, dueDate: string,
                         points: Option<int>)
  datatype Member = Member(id: string, name: string, isChild: bool, chorePoints: Option<int>)

  /** The clock as the dashboards read it: the UTC date text of now, the
      local midnights of today and tomorrow, `new Date(s).getTime()` (None
      for an Invalid Date) and the time formatting. */
  datatype Day = Day(todayStr: string, todayStart: int, tomorrowStart: int,
                     parseInstant: string -> Option<int>, formatTime: string -> string)

  datatype Dose = Dose(time: string, taken: bool)

  datatype Item =
    | ReminderItem(id: string, title: string, time: Option<string>, status: Option<string>)
    | MedicationItem(id: string, title: string, doses: seq<Dose>, medStatus: Status)
    | ChoreItem(id: string, title: string, choreStatus: Option<string>, assignedTo: Option<string>,
                assignedName: Option<string>)

  /** Where the two dashboards differ: the Angular one gives reminders the
      status PENDING and a chore without a status PENDING; the web widget
      leaves both undefined. */
  datatype Flavour = Flavour(reminderStatus: Option<string>, choreFallback: Option<string>)

  const WebWidget := Flavour(None, None)
  const AngularDashboard := Flavour(Some("PENDING"), Some("PENDING"))

  /** A reminder starting at or after today's local midnight and before tomorrow's. */
  predicate StartsToday(r: Reminder, day: Day)
  {
    r.startTime != [] && match day.parseInstant(r.startTime)
                         case None => false
                         case Some(t) => day.todayStart <= t < day.tomorrowStart
  }

  function TodayReminders(reminders: seq<Reminder>, day: Day): (r: seq<Reminder>)
    ensures forall i :: 0 <= i < |r| ==> r[i] in reminders && StartsToday(r[i], day)
    ensures forall i :: 0 <= i < |reminders| && StartsToday(reminders[i], day) ==> reminders[i] in r
  {
    Filter(reminders, (r: Reminder) => StartsToday(r, day))
  }

  /** The web widget's chores of the day: a due date that is today's date text. */
  function TodayChores(chores: seq<Chore>, todayStr: string): (r: seq<Chore>)
    ensures forall i :: 0 <= i < |r| ==> r[i] in chores && r[i].dueDate != [] && r[i].dueDate == todayStr
    ensures forall i :: 0 <= i < |chores| && chores[i].dueDate == todayStr != [] ==> chores[i] in r
  {
    Filter(chores, (c: Chore) => c.dueDate != [] && c.dueDate == todayStr)
  }

  /** `members.find(m => m.id === id)`. */
  function FindMember(members: seq<Member>, id: string): (r: Option<Member>)
    ensures r.Some? ==> r.value in members && r.value.id == id
    ensures r.None? <==> forall i :: 0 <= i < |members| ==> members[i].id != id
    decreases |members|
  {
    if members == [] then None
    else if members[0].id == id then Some(members[0])
    else
      var rest := FindMember(members[1..], id);
      assert forall i :: 0 < i < |members| ==> members[i] == members[1..][i - 1];
      rest
  }

  function ReminderItemOf(r: Reminder, day: Day, flavour: Flavour): Item
  {
    ReminderItem(r.id, r.title, if r.startTime != [] then Some(day.formatTime(r.startTime)) else None,
                 flavour.reminderStatus)
  }

  function DosesOf(m: Med, logs: seq<Log>, day: Day): (r: seq<Dose>)
    ensures |r| == |m.times|
    ensures forall k :: 0 <= k < |r| ==>
              r[k].time == m.times[k] && (r[k].taken <==> DoseTaken(logs, m.id, m.times[k], day.todayStart))
  {
    Map(m.times, (t: string) => Dose(t, DoseTaken(logs, m.id, t, day.todayStart)))
  }

  function TakenOf(d: Dose): bool { d.taken }

  function MedicationItemOf(m: Med, logs: seq<Log>, day: Day): Item
  {
    var doses := DosesOf(m, logs, day);
    MedicationItem(m.id, m.name, doses, DoseStatus(Map(doses, TakenOf)))
  }

  function ChoreItemOf(c: Chore, members: seq<Member>, flavour: Flavour): Item
  {
    var member := FindMember(members, c.assignedTo);
    ChoreItem(c.id, c.title, if c.status != [] then Some(c.status) else flavour.choreFallback,
              OrNull(c.assignedTo), if member.Some? then Some(member.value.name) else None)
  }

  /** The displayed schedule, from today's reminders and chores. */
  function Schedule(todayReminders: seq<Reminder>, meds: seq<Med>, logs: seq<Log>, todayChores: seq<Chore>,
                    members: seq<Member>, day: Day, showAll: bool, flavour: Flavour): seq<Item>
  {
    var priority := Map(todayReminders, (r: Reminder) => ReminderItemOf(r, day, flavour))
                    + Map(ActiveMeds(meds, day.todayStr), (m: Med) => MedicationItemOf(m, logs, day));
    if showAll then priority + Map(todayChores, (c: Chore) => ChoreItemOf(c, members, flavour)) else priority
  }

  /** The schedule lists the reminders, then the active medications, then,
      only with "view all", the chores, each in its list's order. */
  lemma ScheduleLayout(todayReminders: seq<Reminder>, meds: seq<Med>, logs: seq<Log>, todayChores: seq<Chore>,
                       members: seq<Member>, day: Day, showAll: bool, flavour: Flavour)
    ensures var s := Schedule(todayReminders, meds, logs, todayChores, members, day, showAll, flavour);
            var rs := |todayReminders|;
            var active := ActiveMeds(meds, day.todayStr);
            && |s| == rs + |active| + (if showAll then |todayChores| else 0)
            && (forall k :: 0 <= k < rs ==> s[k].ReminderItem? && s[k].id == todayReminders[k].id)
            && (forall k :: rs <= k < rs + |active| ==>
                   s[k].MedicationItem? && s[k].id == active[k - rs].id && ActiveOn(active[k - rs], day.todayStr))
            && (forall k :: rs + |active| <= k < |s| ==>
                   showAll && s[k].ChoreItem? && s[k].id == todayChores[k - rs - |active|].id)
  {
  }

  /** A medication item is TAKEN exactly when every dose of the day is
      logged, PARTIAL when some but not all are, PENDING when none is. */
  lemma MedicationItemStatus(m: Med, logs: seq<Log>, day: Day)
    ensures var item := MedicationItemOf(m, logs, day);
            var taken := TakenCount(m, logs, day.todayStart);
            && (item.medStatus == Taken <==> taken == |m.times|)
            && (item.medStatus == Partial <==> 0 < taken < |m.times|)
            && (item.medStatus == Pending <==> 0 == taken < |m.times|)
  {
    var doses := DosesOf(m, logs, day);
    var flags := Map(doses, TakenOf);
    DoseStatusByCount(flags);
    FlagsCount(m, logs, day.todayStart, flags);
  }

  /** Counting true flags counts the taken times. */
  lemma {:induction false} FlagsCount(m: Med, logs: seq<Log>, today: int, flags: seq<bool>)
    requires |flags| == |m.times|
    requires forall k :: 0 <= k < |flags| ==> (flags[k] <==> DoseTaken(logs, m.id, m.times[k], today))
    ensures Count(flags, IsTrue) == TakenCount(m, logs, today)
    decreases |flags|
  {
    if flags != [] {
      var n := |flags| - 1;
      var m' := m.(times := m.times[..n]);
      FlagsCount(m', logs, today, flags[..n]);
      assert m.times == m'.times + [m.times[n]];
      assert m.times[..n] == m'.times;
    }
  }
}

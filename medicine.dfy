/**
 * The medication rules the web pages share: when a medication is active on
 * a date, when a scheduled dose counts as taken, the dose status shown for
 * a day, the times a new medication gets from the three slot check boxes,
 * and the day's dose totals.
 */
module Medicine {
  import opened Wrappers
  import opened Text
  import opened JsNum
  import opened Seqs

  /** A medication as the pages read it: `schedule?.times || []` is `times`,
      an absent start or end date is "". */
  datatype Med = Med(id: string, name: string, active: bool, startDate: string, endDate: string,
                     times: seq<string>, assignedTo: string)

  /** A dose log; `takenDay` is the local midnight of `takenAt`, None for an Invalid Date. */
  datatype Log = Log(medicineId: string, scheduledTime: string, takenDay: Option<int>)

  /** `a <= b` on strings. */
  predicate StrAtMost(a: string, b: string)
  {
    StrLess(a, b) || a == b
  }

  // ---------------------------------------------------------------------
  // isMedicationActiveToday / isMedicationActiveOnDate
  // ---------------------------------------------------------------------

  /** Inactive, before a given start date or after a given end date, by string comparison, is not active. */
  predicate ActiveOn(m: Med, dateStr: string)
  {
    if !m.active then false
    else if m.startDate != [] && StrLess(dateStr, m.startDate) then false
    else if m.endDate != [] && StrLess(m.endDate, dateStr) then false
    else true
  }

  /** Active exactly inside the window [startDate, endDate], a missing bound being no bound. */
  lemma ActiveOnWindow(m: Med, dateStr: string)
    ensures ActiveOn(m, dateStr) <==> && m.active
                                      && (m.startDate == [] || StrAtMost(m.startDate, dateStr))
                                      && (m.endDate == [] || StrAtMost(dateStr, m.endDate))
  {
    StrLessTrichotomy(dateStr, m.startDate);
    StrLessTrichotomy(m.endDate, dateStr);
  }

  /** A window that ends before it starts holds no date. */
  lemma InvertedWindowNeverActive(m: Med, dateStr: string)
    requires m.startDate != [] && m.endDate != [] && StrLess(m.endDate, m.startDate)
    ensures !ActiveOn(m, dateStr)
  {
    StrLessTrichotomy(dateStr, m.startDate);
    if !StrLess(dateStr, m.startDate) && m.startDate != dateStr {
      StrLessTransitive(m.endDate, m.startDate, dateStr);
    }
  }

  // ---------------------------------------------------------------------
  // isDoseTakenToday / isDoseTakenOnDate
  // ---------------------------------------------------------------------

  predicate Matches(l: Log, medicineId: string, scheduledTime: string, day: int)
  {
    l.medicineId == medicineId && l.scheduledTime == scheduledTime && l.takenDay == Some(day)
  }

  /** Some log is for this medication and time and was taken on `day`. */
  predicate DoseTaken(logs: seq<Log>, medicineId: string, scheduledTime: string, day: int)
  {
    Seqs.Some(logs, (l: Log) => Matches(l, medicineId, scheduledTime, day))
  }

  /** Logging a dose marks exactly the dose it matches as taken and leaves every other dose as it was. */
  lemma LoggingMarksTaken(logs: seq<Log>, l: Log, medicineId: string, scheduledTime: string, day: int)
    ensures DoseTaken(logs + [l], medicineId, scheduledTime, day)
            <==> DoseTaken(logs, medicineId, scheduledTime, day) || Matches(l, medicineId, scheduledTime, day)
  {
    var s := logs + [l];
    if DoseTaken(logs, medicineId, scheduledTime, day) {
      var i :| 0 <= i < |logs| && Matches(logs[i], medicineId, scheduledTime, day);
      assert s[i] == logs[i];
    }
    if Matches(l, medicineId, scheduledTime, day) {
      assert s[|logs|] == l;
    }
    if DoseTaken(s, medicineId, scheduledTime, day) {
      var i :| 0 <= i < |s| && Matches(s[i], medicineId, scheduledTime, day);
      if i < |logs| {
        assert s[i] == logs[i];
      }
    }
  }

  /** A log taken on an Invalid Date marks no dose. */
  lemma InvalidLogMarksNothing(logs: seq<Log>, l: Log, medicineId: string, scheduledTime: string, day: int)
    requires l.takenDay.None?
    ensures DoseTaken(logs + [l], medicineId, scheduledTime, day) == DoseTaken(logs, medicineId, scheduledTime, day)
  {
    LoggingMarksTaken(logs, l, medicineId, scheduledTime, day);
  }

  // ---------------------------------------------------------------------
  // The dose status of a scheduled medication
  // ---------------------------------------------------------------------

  datatype Status = Taken | Partial | Pending

  /** `allTaken ? 'TAKEN' : (someTaken ? 'PARTIAL' : 'PENDING')` over the doses' taken flags. */
  function DoseStatus(taken: seq<bool>): Status
  {
    if forall k :: 0 <= k < |taken| ==> taken[k] then Taken
    else if exists k :: 0 <= k < |taken| && taken[k] then Partial
    else Pending
  }

  function IsTrue(b: bool): bool { b }

  /** TAKEN when every dose is taken (so also with no doses), PARTIAL when
      some but not all are, PENDING when there are doses and none is taken. */
  lemma DoseStatusByCount(taken: seq<bool>)
    ensures DoseStatus(taken) == Taken <==> Count(taken, IsTrue) == |taken|
    ensures DoseStatus(taken) == Partial <==> 0 < Count(taken, IsTrue) < |taken|
    ensures DoseStatus(taken) == Pending <==> 0 == Count(taken, IsTrue) < |taken|
  {
    CountExtremes(taken, IsTrue);
  }

  /** The scheduled times of the logs for a medication taken on `day`:
      `logs.filter(...).map(l => l.scheduledTime)`. */
  function LoggedTimes(logs: seq<Log>, medicineId: string, day: int): seq<string>
  {
    Map(Filter(logs, (l: Log) => l.medicineId == medicineId && l.takenDay == Some(day)), (l: Log) => l.scheduledTime)
  }

  /** A time is among the logged times exactly when its dose was taken that day. */
  lemma LoggedTimesTaken(logs: seq<Log>, medicineId: string, day: int, t: string)
    ensures t in LoggedTimes(logs, medicineId, day) <==> DoseTaken(logs, medicineId, t, day)
  {
    var f := Filter(logs, (l: Log) => l.medicineId == medicineId && l.takenDay == Some(day));
    var r := LoggedTimes(logs, medicineId, day);
    if t in r {
      var k :| 0 <= k < |r| && r[k] == t;
      assert f[k] in logs;
      var i :| 0 <= i < |logs| && logs[i] == f[k];
      assert Matches(logs[i], medicineId, t, day);
    }
    if DoseTaken(logs, medicineId, t, day) {
      var i :| 0 <= i < |logs| && Matches(logs[i], medicineId, t, day);
      assert logs[i] in f;
      var k :| 0 <= k < |f| && f[k] == logs[i];
      assert r[k] == t;
    }
  }

  /** The taken flags of a medication's times on `day`, in order. */
  function TakenFlags(m: Med, logs: seq<Log>, day: int): (r: seq<bool>)
    ensures |r| == |m.times|
    ensures forall k :: 0 <= k < |r| ==> (r[k] <==> DoseTaken(logs, m.id, m.times[k], day))
  {
    Map(m.times, (t: string) => DoseTaken(logs, m.id, t, day))
  }

  // ---------------------------------------------------------------------
  // The times of a new medication
  // ---------------------------------------------------------------------

  const Morning: string := "08:00"
  const Afternoon: string := "14:00"
  const Evening: string := "20:00"

  /** The times pushed for the ticked slots, morning first. */
  function SlotTimes(morning: bool, afternoon: bool, evening: bool): seq<string>
  {
    (if morning then [Morning] else []) + (if afternoon then [Afternoon] else [])
    + (if evening then [Evening] else [])
  }

  /** A slot's time is listed exactly when the slot is ticked, each once, in
      ascending order, and there are as many times as ticked slots. */
  lemma SlotTimesListed(morning: bool, afternoon: bool, evening: bool)
    ensures var r := SlotTimes(morning, afternoon, evening);
            && (Morning in r <==> morning) && (Afternoon in r <==> afternoon) && (Evening in r <==> evening)
            && |r| == (if morning then 1 else 0) + (if afternoon then 1 else 0) + (if evening then 1 else 0)
            && (forall i, j :: 0 <= i < j < |r| ==> StrLess(r[i], r[j]))
  {
    assert StrLess(Morning, Afternoon) by { assert Morning[0] < Afternoon[0]; }
    assert StrLess(Afternoon, Evening) by { assert Afternoon[0] < Evening[0]; }
    assert StrLess(Morning, Evening) by { assert Morning[0] < Evening[0]; }
  }

  /** The handlers' `times.push` for each ticked slot in turn. */
  method PushSlotTimes(morning: bool, afternoon: bool, evening: bool) returns (times: seq<string>)
    ensures times == SlotTimes(morning, afternoon, evening)
  {
    times := [];
    if morning {
      times := times + [Morning];
    }
    if afternoon {
      times := times + [Afternoon];
    }
    if evening {
      times := times + [Evening];
    }
  }

  /** `parseInt(quantity) || 0`: NaN and 0 both give 0. */
  function InventoryOf(quantity: string): (r: int)
    ensures ParseInt(quantity).None? ==> r == 0
    ensures ParseInt(quantity).Some? ==> r == ParseInt(quantity).value
  {
    match ParseInt(quantity)
    case None => 0
    case Some(v) => v
  }

  // ---------------------------------------------------------------------
  // The day's totals
  // ---------------------------------------------------------------------

  function TimesCount(m: Med): int { |m.times| }

  /** How many of a medication's times are taken on `day`. */
  function TakenCount(m: Med, logs: seq<Log>, day: int): (n: nat)
    ensures n <= |m.times|
  {
    Count(m.times, (t: string) => DoseTaken(logs, m.id, t, day))
  }

  /** The number of scheduled doses of the medications. */
  function TotalDoses(meds: seq<Med>): int
  {
    SumOf(meds, TimesCount)
  }

  /** The number of them taken on `day`. */
  function TakenDoses(meds: seq<Med>, logs: seq<Log>, day: int): int
  {
    SumOf(meds, (m: Med) => TakenCount(m, logs, day))
  }

  /** No more doses are taken than are scheduled, and neither count is negative. */
  lemma TakenWithinTotal(meds: seq<Med>, logs: seq<Log>, day: int)
    ensures 0 <= TakenDoses(meds, logs, day) <= TotalDoses(meds)
  {
    var f := (m: Med) => TakenCount(m, logs, day);
    SumOfNonNegative(meds, f);
    SumOfMonotone(meds, f, TimesCount);
  }

  /** `Math.round((taken / total) * 100)` for a positive total, computed exactly. */
  function RoundPercent(taken: int, total: int): int
    requires total > 0
  {
    (200 * taken + total) / (2 * total)
  }

  /** The tracker's progress: 0 with no doses scheduled. */
  function Progress(taken: int, total: int): int
  {
    if total > 0 then RoundPercent(taken, total) else 0
  }

  /** The progress is a percentage: 0 with nothing taken (or nothing
      scheduled), 100 with every dose taken. */
  lemma ProgressBounds(taken: int, total: int)
    requires 0 <= taken <= total
    ensures 0 <= Progress(taken, total) <= 100
    ensures taken == 0 ==> Progress(taken, total) == 0
    ensures taken == total > 0 ==> Progress(taken, total) == 100
  {
    if total > 0 {
      var a := 200 * taken + total;
      var b := 2 * total;
      var q := a / b;
      DivModFundamental(a, b);
      assert (101 - q) * b == 101 * b - q * b;
      MulSign(101 - q, b);
      assert (q + 1) * b == q * b + b;
      MulSign(q + 1, b);
      if taken == 0 {
        DivMod(a, b, 0, total);
      }
      if taken == total {
        DivMod(a, b, 100, total);
      }
    }
  }

  /** The medications active on a date. */
  function ActiveMeds(meds: seq<Med>, dateStr: string): (r: seq<Med>)
    ensures forall i :: 0 <= i < |r| ==> r[i] in meds && ActiveOn(r[i], dateStr)
    ensures forall i :: 0 <= i < |meds| && ActiveOn(meds[i], dateStr) ==> meds[i] in r
  {
    Filter(meds, (m: Med) => ActiveOn(m, dateStr))
  }

  /** One more medication adds its doses and its taken doses. */
  lemma TotalsSnoc(meds: seq<Med>, i: nat, logs: seq<Log>, day: int)
    requires i < |meds|
    ensures TotalDoses(meds[..i + 1]) == TotalDoses(meds[..i]) + |meds[i].times|
    ensures TakenDoses(meds[..i + 1], logs, day) == TakenDoses(meds[..i], logs, day) + TakenCount(meds[i], logs, day)
  {
    assert meds[..i + 1][..i] == meds[..i];
  }
}

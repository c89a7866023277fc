/**
 * The web medications page: the add form, the medications active today,
 * the day's dose totals computed with `reduce`, and the "all doses taken"
 * badge of a medication card.
 */
module MedicationsPage {
  import opened Wrappers
  import opened Seqs
  import opened Forms
  import opened Medicine

  /** handleAddMedicine: silently does nothing without a family, a name or
      an assignee; the name is not trimmed and no time has to be ticked. */
  function AddMedicine(familyId: Option<string>, form: MedicineForm): (r: Submission<MedicineRequest>)
    ensures r.Rejected? <==> !HasFamily(familyId) || form.name == [] || form.assignedTo == []
    ensures r.Rejected? ==> r.reason == []
    ensures r.Accepted? ==>
              && r.value.name == form.name
              && r.value.times == SlotTimes(form.morning, form.afternoon, form.evening)
              && r.value.inventory == InventoryOf(form.quantity)
              && r.value.startDate == OrNull(form.startDate) && r.value.endDate == OrNull(form.endDate)
              && r.value.assignedTo == Some(form.assignedTo) && r.value.active == None
  {
    if !HasFamily(familyId) || form.name == [] || form.assignedTo == [] then Rejected([])
    else
      Accepted(MedicineRequest(form.name, SlotTimes(form.morning, form.afternoon, form.evening),
                               InventoryOf(form.quantity), OrNull(form.startDate), OrNull(form.endDate),
                               Some(form.assignedTo), None))
  }

  /** isMedicationActiveToday as this page writes it: the window first, `active` last. */
  predicate ActiveToday(m: Med, todayStr: string)
  {
    if m.startDate != [] && Text.StrLess(todayStr, m.startDate) then false
    else if m.endDate != [] && Text.StrLess(m.endDate, todayStr) then false
    else m.active
  }

  /** It is the same rule as the other pages'. */
  lemma ActiveTodayIsActiveOn(m: Med, todayStr: string)
    ensures ActiveToday(m, todayStr) == ActiveOn(m, todayStr)
  {
  }

  /** The accumulator of todayStats. */
  datatype Stats = Stats(totalDoses: int, takenDoses: int)

  /** One step of the reduce: a medication adds its times and its taken times. */
  function StatsStep(acc: Stats, m: Med, logs: seq<Log>, today: int): Stats
  {
    Stats(acc.totalDoses + |m.times|, acc.takenDoses + |Filter(m.times, (t: string) => DoseTaken(logs, m.id, t, today))|)
  }

  /** `meds.reduce(step, {0, 0})`, left to right. */
  function ReduceStats(meds: seq<Med>, logs: seq<Log>, today: int): Stats
    decreases |meds|
  {
    if meds == [] then Stats(0, 0)
    else StatsStep(ReduceStats(meds[..|meds| - 1], logs, today), meds[|meds| - 1], logs, today)
  }

  /** The reduce counts the day's scheduled doses and taken doses. */
  lemma {:induction false} ReduceStatsTotals(meds: seq<Med>, logs: seq<Log>, today: int)
    ensures ReduceStats(meds, logs, today) == Stats(TotalDoses(meds), TakenDoses(meds, logs, today))
    decreases |meds|
  {
    if meds != [] {
      var init := meds[..|meds| - 1];
      var m := meds[|meds| - 1];
      ReduceStatsTotals(init, logs, today);
      CountIsFilterLength(m.times, (t: string) => DoseTaken(logs, m.id, t, today));
      assert TakenCount(m, logs, today) == Count(m.times, (t: string) => DoseTaken(logs, m.id, t, today));
    }
  }

  /** todayStats over the medications active today. */
  function TodayStats(meds: seq<Med>, logs: seq<Log>, today: int, todayStr: string): Stats
  {
    ReduceStats(Filter(meds, (m: Med) => ActiveToday(m, todayStr)), logs, today)
  }

  /** The page's totals are the dashboard tracker's totals, and never more are taken than scheduled. */
  lemma TodayStatsBounds(meds: seq<Med>, logs: seq<Log>, today: int, todayStr: string)
    ensures var s := TodayStats(meds, logs, today, todayStr);
            var active := ActiveMeds(meds, todayStr);
            && s == Stats(TotalDoses(active), TakenDoses(active, logs, today))
            && 0 <= s.takenDoses <= s.totalDoses
  {
    var active := ActiveMeds(meds, todayStr);
    assert Filter(meds, (m: Med) => ActiveToday(m, todayStr)) == active by {
      FilterSameTest(meds, todayStr);
    }
    ReduceStatsTotals(active, logs, today);
    TakenWithinTotal(active, logs, today);
  }

  /** Filtering with this page's test or the shared one keeps the same medications. */
  lemma {:induction false} FilterSameTest(meds: seq<Med>, todayStr: string)
    ensures Filter(meds, (m: Med) => ActiveToday(m, todayStr)) == Filter(meds, (m: Med) => ActiveOn(m, todayStr))
    decreases |meds|
  {
    if meds != [] {
      FilterSameTest(meds[..|meds| - 1], todayStr);
    }
  }

  /** The card's badge: some times, all taken today. */
  predicate AllDosesTaken(m: Med, logs: seq<Log>, today: int)
  {
    |m.times| > 0 && |Filter(m.times, (t: string) => DoseTaken(logs, m.id, t, today))| == |m.times|
  }

  /** The badge shows exactly when every dose of a medication with doses is
      taken, that is when the dashboard's status is TAKEN for a medication
      that has times. */
  lemma AllDosesTakenIffStatus(m: Med, logs: seq<Log>, today: int)
    ensures AllDosesTaken(m, logs, today) <==>
              |m.times| > 0 && forall k :: 0 <= k < |m.times| ==> DoseTaken(logs, m.id, m.times[k], today)
    ensures AllDosesTaken(m, logs, today) <==> |m.times| > 0 && DoseStatus(TakenFlags(m, logs, today)) == Taken
  {
    var p := (t: string) => DoseTaken(logs, m.id, t, today);
    CountIsFilterLength(m.times, p);
    CountExtremes(m.times, p);
  }
}

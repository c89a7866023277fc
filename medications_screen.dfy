/**
 * The mobile medications screen: the add form, the time labels, the day's
 * statistics and the time buttons. Unlike the web pages, this screen
 * treats every medication flagged active as active (no date window) and
 * counts every log of today, not the scheduled times that are taken.
 */
module MedicationsScreen {
  import opened Wrappers
  import opened Seqs
  import opened Forms
  import opened Medicine

  /** handleAddMedicine: nothing happens for a blank name; with no slot
      ticked the medication is taken in the morning. */
  function AddMedicine(form: MedicineForm): (r: Submission<MedicineRequest>)
    ensures r.Rejected? <==> Blank(form.name)
    ensures r.Rejected? ==> r.reason == []
    ensures r.Accepted? ==>
              && r.value.name == form.name
              && r.value.times == (if form.morning || form.afternoon || form.evening
                                   then SlotTimes(form.morning, form.afternoon, form.evening) else [Morning])
              && r.value.inventory == InventoryOf(form.quantity) && r.value.active == Some(true)
              && r.value.startDate == None && r.value.endDate == None && r.value.assignedTo == None
  {
    if Blank(form.name) then Rejected([])
    else
      var times := SlotTimes(form.morning, form.afternoon, form.evening);
      Accepted(MedicineRequest(form.name, if times == [] then [Morning] else times, InventoryOf(form.quantity),
                               None, None, None, Some(true)))
  }

  /** An added medication always has between one and three times. */
  lemma AddedMedicineHasTimes(form: MedicineForm)
    requires AddMedicine(form).Accepted?
    ensures 1 <= |AddMedicine(form).value.times| <= 3
    ensures Morning in AddMedicine(form).value.times <==> form.morning || !(form.afternoon || form.evening)
  {
    SlotTimesListed(form.morning, form.afternoon, form.evening);
  }

  /** getTimeLabel. */
  function TimeLabel(time: string): (r: string)
    ensures time == Morning ==> r == "Morning"
    ensures time == Afternoon ==> r == "Afternoon"
    ensures time == Evening ==> r == "Evening"
    ensures time != Morning && time != Afternoon && time != Evening ==> r == time
  {
    if time == Morning then "Morning"
    else if time == Afternoon then "Afternoon"
    else if time == Evening then "Evening"
    else time
  }

  predicate IsActive(m: Med) { m.active }

  /** Today's logs of a medication, whatever their time. */
  function TodayLogs(logs: seq<Log>, medicineId: string, today: int): (r: seq<Log>)
    ensures forall i :: 0 <= i < |r| ==> r[i] in logs && r[i].medicineId == medicineId && r[i].takenDay == Some(today)
    ensures forall i :: 0 <= i < |logs| && logs[i].medicineId == medicineId && logs[i].takenDay == Some(today)
              ==> logs[i] in r
  {
    Filter(logs, (l: Log) => l.medicineId == medicineId && l.takenDay == Some(today))
  }

  function LoggedCount(m: Med, logs: seq<Log>, today: int): int
  {
    |TodayLogs(logs, m.id, today)|
  }

  /** The statistics' taken count: every log of today of an active medication. */
  function LoggedToday(meds: seq<Med>, logs: seq<Log>, today: int): int
  {
    SumOf(meds, (m: Med) => LoggedCount(m, logs, today))
  }

  /** todayStats: the forEach over the active medications with running counters. */
  method TodayStats(medicines: seq<Med>, logs: seq<Log>, today: int) returns (total: int, taken: int, percentage: int)
    ensures total == TotalDoses(Filter(medicines, IsActive))
    ensures taken == LoggedToday(Filter(medicines, IsActive), logs, today)
    ensures 0 <= total && 0 <= taken
    ensures percentage == Progress(taken, total)
  {
    var active := Filter(medicines, IsActive);
    ghost var logged := (m: Med) => LoggedCount(m, logs, today);
    total := 0;
    taken := 0;
    for i := 0 to |active|
      invariant total == TotalDoses(active[..i]) && taken == SumOf(active[..i], logged)
      invariant total >= 0 && taken >= 0
    {
      var med := active[i];
      SumOfSnoc(active, i, TimesCount);
      SumOfSnoc(active, i, logged);
      total := total + |med.times|;
      var todayLogs := Filter(logs, (l: Log) => l.medicineId == med.id && l.takenDay == Some(today));
      assert logged(med) == |todayLogs|;
      taken := taken + |todayLogs|;
    }
    assert active[..|active|] == active;
    percentage := if total > 0 then RoundPercent(taken, total) else 0;
  }

  /** A time button shows taken exactly when one of today's logs of the medication has that time. */
  lemma TimeButtonTaken(m: Med, logs: seq<Log>, today: int, time: string)
    ensures (exists l :: l in TodayLogs(logs, m.id, today) && l.scheduledTime == time)
            <==> DoseTaken(logs, m.id, time, today)
  {
    var todayLogs := TodayLogs(logs, m.id, today);
    if DoseTaken(logs, m.id, time, today) {
      var i :| 0 <= i < |logs| && Matches(logs[i], m.id, time, today);
      assert logs[i] in todayLogs;
    }
  }

  /** The taken count is not bounded by the doses: a dose logged twice,
      here one scheduled time with two logs today, yields 2 of 1 (200%). */
  lemma RepeatedLogOvercounts(today: int)
    ensures var m := Med("m", "Aspirin", true, "", "", [Morning], "");
            var l := Log("m", Morning, Some(today));
            && TotalDoses([m]) == 1 && LoggedToday([m], [l, l], today) == 2
            && Progress(2, 1) == 200
  {
    var m := Med("m", "Aspirin", true, "", "", [Morning], "");
    var l := Log("m", Morning, Some(today));
    assert [l, l][..1] == [l] && [l][..0] == [];
    assert TodayLogs([l], "m", today) == [l];
    assert TodayLogs([l, l], "m", today) == [l, l];
    assert LoggedCount(m, [l, l], today) == 2;
    assert [m][..1] == [m] && [m][..0] == [];
    SumOfSnoc([m], 0, TimesCount);
    SumOfSnoc([m], 0, (m: Med) => LoggedCount(m, [l, l], today));
  }
}

/**
 * The local-notification rules of the web client: the string hash behind
 * the notification ids, the id range of each kind, cancelling by range,
 * the firing time, and the three schedulers with their skip rules. The
 * native plugin is left out: a scheduler's result is the list it hands to
 * the plugin and the count it returns.
 */
module Notifications {
  import opened Wrappers
  import opened Text
  import opened JsNum
  import opened Seqs

  const MedicationOffset: int := 100000
  const ChoreOffset: int := 200000
  const ReminderOffset: int := 300000
  /** The bound of `Math.abs(hash) % 90000`. */
  const HashRange: int := 90000
  /** The width of the range cancelNotificationsByPrefix clears. */
  const PrefixWidth: int := 100000

  // ---------------------------------------------------------------------
  // hashStringToNumber
  // ---------------------------------------------------------------------

  /** The UTF-16 code units of one character, as charCodeAt reads them. */
  function CodeUnitsOf(c: char): (r: seq<int>)
    ensures 1 <= |r| <= 2 && forall k :: 0 <= k < |r| ==> 0 <= r[k] < 0x10000
  {
    var v := c as int;
    if v < 0x10000 then [v] else [0xD800 + (v - 0x10000) / 0x400, 0xDC00 + (v - 0x10000) % 0x400]
  }

  /** The code units of a string: what `str.length` counts. */
  function CodeUnits(s: string): (r: seq<int>)
    ensures |s| <= |r| <= 2 * |s|
    ensures forall k :: 0 <= k < |r| ==> 0 <= r[k] < 0x10000
    decreases |s|
  {
    if s == [] then [] else CodeUnits(s[..|s| - 1]) + CodeUnitsOf(s[|s| - 1])
  }

  /** One turn of the loop: `hash = ((hash << 5) - hash) + char`, then `hash & hash`. */
  function HashStep(h: int, c: int): int
  {
    ToInt32(ToInt32(h * 32) - h + c)
  }

  /** The hash after the code units, from 0. */
  function HashFold(units: seq<int>): (h: int)
    ensures -TwoTo31 <= h < TwoTo31
    decreases |units|
  {
    if units == [] then 0 else HashStep(HashFold(units[..|units| - 1]), units[|units| - 1])
  }

  /** The shift-and-subtract step is the 32-bit `31 * h + c`. */
  lemma HashStepIsMultiply(h: int, c: int)
    ensures HashStep(h, c) == ToInt32(31 * h + c)
  {
    var x := 32 * h;
    DivModFundamental(x, TwoTo32);
    var k := if x % TwoTo32 >= TwoTo31 then -(x / TwoTo32) - 1 else -(x / TwoTo32);
    assert ToInt32(x) == x + k * TwoTo32;
    ToInt32Shift(31 * h + c, k);
  }

  /** hashStringToNumber as a value. */
  function Hash(s: string): (r: int)
    ensures 0 <= r < HashRange
  {
    Abs(HashFold(CodeUnits(s))) % HashRange
  }

  /** The empty string hashes to 0, and one more code unit folds in as `31 * h + c`. */
  lemma HashFoldSnoc(units: seq<int>, c: int)
    ensures HashFold([]) == 0
    ensures HashFold(units + [c]) == ToInt32(31 * HashFold(units) + c)
  {
    assert (units + [c])[..|units|] == units;
    HashStepIsMultiply(HashFold(units), c);
  }

  /** hashStringToNumber: the loop over the code units. */
  method HashStringToNumber(str: string) returns (r: int)
    ensures r == Hash(str) && 0 <= r < HashRange
  {
    var units := CodeUnits(str);
    var hash := 0;
    for i := 0 to |units|
      invariant hash == HashFold(units[..i])
    {
      var ch := units[i];
      assert units[..i + 1][..i] == units[..i];
      hash := ToInt32(hash * 32) - hash + ch;
      hash := ToInt32(hash);
    }
    assert units[..|units|] == units;
    r := Abs(hash) % HashRange;
  }

  // ---------------------------------------------------------------------
  // Notification ids
  // ---------------------------------------------------------------------

  /** The id of a medication dose: offset, hash, time index, and 1000 more for tomorrow. */
  function MedicationId(medId: string, timeIdx: nat, tomorrow: bool): (id: int)
    ensures MedicationOffset <= id
  {
    MedicationOffset + Hash(medId) + timeIdx + (if tomorrow then 1000 else 0)
  }

  function ChoreId(choreId: string): (id: int)
    ensures ChoreOffset <= id < ChoreOffset + HashRange
  {
    ChoreOffset + Hash(choreId)
  }

  function ReminderId(reminderId: string): (id: int)
    ensures ReminderOffset <= id < ReminderOffset + HashRange
  {
    ReminderOffset + Hash(reminderId)
  }

  /** With fewer than 9001 times, medication ids stay below the chore range. */
  lemma MedicationIdInRange(medId: string, timeIdx: nat, tomorrow: bool)
    requires timeIdx < 9001
    ensures MedicationOffset <= MedicationId(medId, timeIdx, tomorrow) < ChoreOffset
  {
  }

  /** So the three kinds never share an id. */
  lemma IdKindsDisjoint(medId: string, timeIdx: nat, tomorrow: bool, choreId: string, reminderId: string)
    requires timeIdx < 9001
    ensures MedicationId(medId, timeIdx, tomorrow) != ChoreId(choreId)
    ensures MedicationId(medId, timeIdx, tomorrow) != ReminderId(reminderId)
    ensures ChoreId(choreId) != ReminderId(reminderId)
  {
    MedicationIdInRange(medId, timeIdx, tomorrow);
  }

  /** cancelNotificationsByPrefix: the pending ids in [prefix, prefix + 100000). */
  function CancelledByPrefix(prefix: int, pending: seq<int>): (r: seq<int>)
    ensures forall k :: 0 <= k < |r| ==> r[k] in pending && prefix <= r[k] < prefix + PrefixWidth
    ensures forall k :: 0 <= k < |pending| && prefix <= pending[k] < prefix + PrefixWidth ==> pending[k] in r
  {
    Filter(pending, (n: int) => prefix <= n < prefix + PrefixWidth)
  }

  /** Rescheduling one kind cancels none of the other kinds' notifications. */
  lemma CancelSparesOtherKinds(pending: seq<int>, medId: string, timeIdx: nat, tomorrow: bool,
                               choreId: string, reminderId: string)
    requires timeIdx < 9001
    ensures MedicationId(medId, timeIdx, tomorrow) !in CancelledByPrefix(ChoreOffset, pending)
    ensures MedicationId(medId, timeIdx, tomorrow) !in CancelledByPrefix(ReminderOffset, pending)
    ensures ChoreId(choreId) !in CancelledByPrefix(MedicationOffset, pending)
    ensures ChoreId(choreId) !in CancelledByPrefix(ReminderOffset, pending)
    ensures ReminderId(reminderId) !in CancelledByPrefix(MedicationOffset, pending)
    ensures ReminderId(reminderId) !in CancelledByPrefix(ChoreOffset, pending)
  {
    MedicationIdInRange(medId, timeIdx, tomorrow);
  }

  // ---------------------------------------------------------------------
  // createNotificationTime
  // ---------------------------------------------------------------------

  /** A Date's time value: milliseconds, or NaN for an Invalid Date. */
  datatype Moment = At(ms: int) | InvalidDate

  /** The clock and the date parsing the schedulers rely on. `localMidnight`
      is `new Date(s)` on a local date-time text and `parseInstant` on a
      start time, None for an Invalid Date; today and tomorrow are the
      UTC date texts of now and of a day later. */
  datatype Clock = Clock(now: int, today: string, tomorrow: string,
                         localMidnight: string -> Option<int>, parseInstant: string -> Option<int>)

  /** `timeStr.split(':').map(Number)` read as hours and minutes; a missing
      minutes part is undefined, so NaN. */
  function ClockTime(timeStr: string): (r: Option<(int, int)>)
    ensures r.Some? ==> |Split(timeStr, ':')| >= 2
  {
    var parts := Split(timeStr, ':');
    var hours := StringToNumber(parts[0]);
    var minutes := if |parts| >= 2 then StringToNumber(parts[1]) else None;
    if hours.Some? && minutes.Some? then Some((hours.value, minutes.value)) else None
  }

  /** A two-digit number. */
  function TwoDigits(t: string): (v: int)
    requires |t| == 2 && IsDigit(t[0]) && IsDigit(t[1])
    ensures 0 <= v < 100
  {
    10 * HexValue(t[0]) + HexValue(t[1])
  }

  lemma TwoDigitsNumber(t: string)
    requires |t| == 2 && IsDigit(t[0]) && IsDigit(t[1])
    ensures StringToNumber(t) == Some(TwoDigits(t))
  {
    assert !IsJsSpace(t[0]) && !IsJsSpace(t[1]);
    TrimStops(t, IsJsSpace);
    assert t[..1][..0] == [] && t[..|t| - 1] == t[..1];
    assert DigitsValue(t[..1], 10) == HexValue(t[0]);
    assert DigitsValue(t, 10) == TwoDigits(t);
  }

  /** "HH:MM" reads as its hour and minute. */
  lemma ClockTimeOfDigits(t: string)
    requires |t| == 5 && t[2] == ':'
    requires IsDigit(t[0]) && IsDigit(t[1]) && IsDigit(t[3]) && IsDigit(t[4])
    ensures ClockTime(t) == Some((TwoDigits(t[..2]), TwoDigits(t[3..])))
  {
    assert t == t[..2] + [':'] + t[3..];
    SplitAround(t[..2], ':', t[3..]);
    TwoDigitsNumber(t[..2]);
    TwoDigitsNumber(t[3..]);
  }

  /** The time the notification would fire, before the comparison with now. */
  function FireTime(dateStr: string, timeStr: string, minutesBefore: int, clock: Clock): Moment
  {
    var date := clock.localMidnight(dateStr + "T00:00:00");
    match ClockTime(timeStr)
    case None => InvalidDate
    case Some(hm) =>
      if date.None? then InvalidDate
      else At(date.value + hm.0 * 3600000 + hm.1 * 60000 - minutesBefore * 60000)
  }

  /** createNotificationTime: null when the firing time is not after now.
      `NaN <= now` is false, so an Invalid Date is returned, not null. */
  function NotificationTime(dateStr: string, timeStr: string, minutesBefore: int, clock: Clock): (r: Option<Moment>)
    ensures r.None? <==> FireTime(dateStr, timeStr, minutesBefore, clock).At?
                         && FireTime(dateStr, timeStr, minutesBefore, clock).ms <= clock.now
    ensures r == Some(InvalidDate) <==> ClockTime(timeStr).None? || clock.localMidnight(dateStr + "T00:00:00").None?
    ensures r.Some? && r.value.At? ==> r.value.ms > clock.now
  {
    var t := FireTime(dateStr, timeStr, minutesBefore, clock);
    if t.At? && t.ms <= clock.now then None else Some(t)
  }

  /** A time without a minutes part gives an Invalid Date rather than null. */
  lemma MissingMinutesIsInvalid(dateStr: string, timeStr: string, minutesBefore: int, clock: Clock)
    requires ':' !in timeStr
    ensures NotificationTime(dateStr, timeStr, minutesBefore, clock) == Some(InvalidDate)
  {
    SplitWithoutSeparator(timeStr, ':');
  }

  // ---------------------------------------------------------------------
  // The schedulers
  // ---------------------------------------------------------------------

  datatype Kind = MedicationKind | ChoreKind | ReminderKind

  /** What is handed to the plugin: id, firing time, body, and the `extra` type and id. */
  datatype Notice = Notice(id: int, at: Moment, body: string, kind: Kind, refId: string)

  /** The settings the schedulers read. */
  datatype Settings = Settings(medicationsEnabled: bool, medicationsMinutes: int,
                               choresEnabled: bool, choresMinutes: int,
                               remindersEnabled: bool, remindersMinutes: int)

  /** `times` is None when the schedule has no times array. */
  datatype MedSchedule = MedSchedule(times: Option<seq<string>>)

  /** A medication as the scheduler reads it; a null dosage is "", a null `active` false. */
  datatype Med = Med(id: string, name: string, dosage: string, active: bool, schedule: Option<MedSchedule>)

  function MedBody(med: Med): string
  {
    "Time to take " + med.name + (if med.dosage != [] then " (" + med.dosage + ")" else "")
  }

  /** The notice for one dose on one date, when its time is not past. */
  function DoseNotice(med: Med, timeIdx: nat, time: string, dateStr: string, minutes: int, clock: Clock): (r: seq<Notice>)
    ensures |r| <= 1
    ensures |r| == 1 <==> NotificationTime(dateStr, time, minutes, clock).Some?
    ensures |r| == 1 ==> r[0].id == MedicationId(med.id, timeIdx, dateStr == clock.tomorrow)
                         && r[0].at == NotificationTime(dateStr, time, minutes, clock).value
                         && r[0].kind == MedicationKind && r[0].refId == med.id
  {
    match NotificationTime(dateStr, time, minutes, clock)
    case None => []
    case Some(at) =>
      [Notice(MedicationId(med.id, timeIdx, dateStr == clock.tomorrow), at, MedBody(med), MedicationKind, med.id)]
  }

  /** `[today, tomorrow]`. */
  function Dates(clock: Clock): seq<string>
  {
    [clock.today, clock.tomorrow]
  }

  /** Today's notice, then tomorrow's. */
  function TimeNotices(med: Med, timeIdx: nat, time: string, minutes: int, clock: Clock): seq<Notice>
  {
    FlatMap(Dates(clock), (dateStr: string) => DoseNotice(med, timeIdx, time, dateStr, minutes, clock))
  }

  /** The notices of the first |times| times, in order. */
  function TimesNotices(med: Med, times: seq<string>, minutes: int, clock: Clock): seq<Notice>
    decreases |times|
  {
    if times == [] then []
    else TimesNotices(med, times[..|times| - 1], minutes, clock)
         + TimeNotices(med, |times| - 1, times[|times| - 1], minutes, clock)
  }

  /** The medication is skipped when inactive, unscheduled or without a times array. */
  predicate MedScheduled(med: Med)
  {
    med.active && med.schedule.Some? && med.schedule.value.times.Some?
  }

  function MedNotices(med: Med, minutes: int, clock: Clock): seq<Notice>
  {
    if MedScheduled(med) then TimesNotices(med, med.schedule.value.times.value, minutes, clock) else []
  }

  function MedicationNotices(meds: seq<Med>, minutes: int, clock: Clock): seq<Notice>
  {
    FlatMap(meds, (m: Med) => MedNotices(m, minutes, clock))
  }

  /** At most two notices per scheduled time, today's and tomorrow's. */
  lemma {:induction false} TimesNoticesBound(med: Med, times: seq<string>, minutes: int, clock: Clock)
    ensures |TimesNotices(med, times, minutes, clock)| <= 2 * |times|
    decreases |times|
  {
    if times != [] {
      TimesNoticesBound(med, times[..|times| - 1], minutes, clock);
      var j := |times| - 1;
      FlatMapBound(Dates(clock), (dateStr: string) => DoseNotice(med, j, times[j], dateStr, minutes, clock), 1);
    }
  }

  /** Every notice of a medication time carries its id range, kind and medication. */
  lemma {:induction false} TimesNoticesShape(med: Med, times: seq<string>, minutes: int, clock: Clock)
    requires |times| < 9002
    ensures forall k :: 0 <= k < |TimesNotices(med, times, minutes, clock)| ==>
              var n := TimesNotices(med, times, minutes, clock)[k];
              && MedicationOffset <= n.id < ChoreOffset && n.kind == MedicationKind && n.refId == med.id
              && (n.at.At? ==> n.at.ms > clock.now)
    decreases |times|
  {
    if times != [] {
      var j := |times| - 1;
      TimesNoticesShape(med, times[..j], minutes, clock);
      MedicationIdInRange(med.id, j, true);
      MedicationIdInRange(med.id, j, false);
      FlatMapAll(Dates(clock), (dateStr: string) => DoseNotice(med, j, times[j], dateStr, minutes, clock),
                 (n: Notice) => && MedicationOffset <= n.id < ChoreOffset && n.kind == MedicationKind
                                && n.refId == med.id && (n.at.At? ==> n.at.ms > clock.now));
    }
  }

  /** Medication notices stay in their range and fire after now, when valid. */
  lemma MedicationNoticesShape(meds: seq<Med>, minutes: int, clock: Clock)
    requires forall i :: 0 <= i < |meds| && MedScheduled(meds[i]) ==> |meds[i].schedule.value.times.value| < 9002
    ensures forall k :: 0 <= k < |MedicationNotices(meds, minutes, clock)| ==>
              var n := MedicationNotices(meds, minutes, clock)[k];
              MedicationOffset <= n.id < ChoreOffset && n.kind == MedicationKind && (n.at.At? ==> n.at.ms > clock.now)
  {
    var f := (m: Med) => MedNotices(m, minutes, clock);
    forall i | 0 <= i < |meds| && MedScheduled(meds[i]) {
      TimesNoticesShape(meds[i], meds[i].schedule.value.times.value, minutes, clock);
    }
    FlatMapAll(meds, f, (n: Notice) => MedicationOffset <= n.id < ChoreOffset && n.kind == MedicationKind
                                       && (n.at.At? ==> n.at.ms > clock.now));
  }

  /** An inactive or unscheduled medication yields nothing; a scheduled one
      at most two notices per time. */
  lemma MedNoticesBound(med: Med, minutes: int, clock: Clock)
    ensures !MedScheduled(med) ==> MedNotices(med, minutes, clock) == []
    ensures MedScheduled(med) ==> |MedNotices(med, minutes, clock)| <= 2 * |med.schedule.value.times.value|
  {
    if MedScheduled(med) {
      TimesNoticesBound(med, med.schedule.value.times.value, minutes, clock);
    }
  }

  /** scheduleMedicationNotifications: the list handed to the plugin and the
      count returned, which is the list's length even when the plugin throws. */
  method ScheduleMedications(meds: seq<Med>, settings: Settings, native: bool, clock: Clock)
    returns (count: int, built: seq<Notice>)
    ensures !native || !settings.medicationsEnabled ==> count == 0 && built == []
    ensures native && settings.medicationsEnabled ==>
              built == MedicationNotices(meds, settings.medicationsMinutes, clock) && count == |built|
  {
    if !native || !settings.medicationsEnabled {
      return 0, [];
    }
    var minutes := settings.medicationsMinutes;
    built := [];
    ghost var each := (m: Med) => MedNotices(m, minutes, clock);
    for i := 0 to |meds|
      invariant built == FlatMap(meds[..i], each)
    {
      var med := meds[i];
      FlatMapSnoc(meds, i, each);
      if !med.active || med.schedule.None? || med.schedule.value.times.None? {
        assert each(med) == [];
        continue;
      }
      var times := med.schedule.value.times.value;
      var own := BuildTimes(med, times, minutes, clock);
      assert each(med) == own;
      built := built + own;
    }
    assert meds[..|meds|] == meds;
    count := |built|;
  }

  /** The loop over one medication's times. */
  method BuildTimes(med: Med, times: seq<string>, minutes: int, clock: Clock) returns (own: seq<Notice>)
    ensures own == TimesNotices(med, times, minutes, clock)
  {
    own := [];
    for timeIdx := 0 to |times|
      invariant own == TimesNotices(med, times[..timeIdx], minutes, clock)
    {
      var time := times[timeIdx];
      var hash := HashStringToNumber(med.id);
      var baseId := MedicationOffset + hash + timeIdx;
      assert times[..timeIdx + 1][..timeIdx] == times[..timeIdx];
      var doses := BuildDoses(med, timeIdx, time, baseId, minutes, clock);
      own := own + doses;
    }
    assert times[..|times|] == times;
  }

  /** The loop over today and tomorrow for one time of a medication. */
  method BuildDoses(med: Med, timeIdx: nat, time: string, baseId: int, minutes: int, clock: Clock)
    returns (doses: seq<Notice>)
    requires baseId == MedicationOffset + Hash(med.id) + timeIdx
    ensures doses == TimeNotices(med, timeIdx, time, minutes, clock)
  {
    doses := [];
    ghost var dose := (dateStr: string) => DoseNotice(med, timeIdx, time, dateStr, minutes, clock);
    var dates := Dates(clock);
    for d := 0 to 2
      invariant doses == FlatMap(dates[..d], dose)
    {
      var dateStr := dates[d];
      FlatMapSnoc(dates, d, dose);
      var notifTime := NotificationTime(dateStr, time, minutes, clock);
      if notifTime.Some? {
        var dayOffset := if dateStr == clock.tomorrow then 1000 else 0;
        var id := baseId + dayOffset;
        assert id == MedicationId(med.id, timeIdx, dateStr == clock.tomorrow);
        assert dose(dateStr) == [Notice(id, notifTime.value, MedBody(med), MedicationKind, med.id)];
        doses := doses + [Notice(id, notifTime.value, MedBody(med), MedicationKind, med.id)];
      } else {
        assert dose(dateStr) == [];
      }
    }
    assert dates[..2] == dates;
  }

  /** A chore as the scheduler reads it; a null text is "". */
  datatype ChoreData = ChoreData(id: string, title: string, dueDate: string, dueTime: string, status: string)

  /** COMPLETED and DONE chores, and chores without a due date, are skipped. */
  predicate ChoreScheduled(c: ChoreData)
  {
    c.status != "COMPLETED" && c.status != "DONE" && c.dueDate != []
  }

  /** `chore.dueTime || '08:00'`. */
  function ChoreTime(c: ChoreData): string
  {
    if c.dueTime == [] then "08:00" else c.dueTime
  }

  function ChoreNotice(c: ChoreData, minutes: int, clock: Clock): (r: seq<Notice>)
    ensures |r| <= 1
    ensures |r| == 1 <==> ChoreScheduled(c) && NotificationTime(c.dueDate, ChoreTime(c), minutes, clock).Some?
    ensures |r| == 1 ==> r[0].id == ChoreId(c.id) && r[0].kind == ChoreKind && r[0].refId == c.id
                         && r[0].at == NotificationTime(c.dueDate, ChoreTime(c), minutes, clock).value
  {
    if !ChoreScheduled(c) then []
    else
      match NotificationTime(c.dueDate, ChoreTime(c), minutes, clock)
      case None => []
      case Some(at) => [Notice(ChoreId(c.id), at, "Don't forget: " + c.title, ChoreKind, c.id)]
  }

  function ChoreNotices(chores: seq<ChoreData>, minutes: int, clock: Clock): seq<Notice>
  {
    FlatMap(chores, (c: ChoreData) => ChoreNotice(c, minutes, clock))
  }

  /** At most one notice per chore, each in the chore range and after now when valid. */
  lemma ChoreNoticesShape(chores: seq<ChoreData>, minutes: int, clock: Clock)
    ensures |ChoreNotices(chores, minutes, clock)| <= |chores|
    ensures forall k :: 0 <= k < |ChoreNotices(chores, minutes, clock)| ==>
              var n := ChoreNotices(chores, minutes, clock)[k];
              ChoreOffset <= n.id < ChoreOffset + HashRange && n.kind == ChoreKind && (n.at.At? ==> n.at.ms > clock.now)
  {
    var f := (c: ChoreData) => ChoreNotice(c, minutes, clock);
    FlatMapBound(chores, f, 1);
    FlatMapAll(chores, f, (n: Notice) => ChoreOffset <= n.id < ChoreOffset + HashRange && n.kind == ChoreKind
                                         && (n.at.At? ==> n.at.ms > clock.now));
  }

  method ScheduleChores(chores: seq<ChoreData>, settings: Settings, native: bool, clock: Clock)
    returns (count: int, built: seq<Notice>)
    ensures !native || !settings.choresEnabled ==> count == 0 && built == []
    ensures native && settings.choresEnabled ==>
              built == ChoreNotices(chores, settings.choresMinutes, clock) && count == |built|
  {
    if !native || !settings.choresEnabled {
      return 0, [];
    }
    var minutes := settings.choresMinutes;
    built := [];
    ghost var each := (c: ChoreData) => ChoreNotice(c, minutes, clock);
    for i := 0 to |chores|
      invariant built == FlatMap(chores[..i], each)
    {
      var chore := chores[i];
      FlatMapSnoc(chores, i, each);
      if chore.status == "COMPLETED" || chore.status == "DONE" {
        assert each(chore) == [];
        continue;
      }
      if chore.dueDate == [] {
        assert each(chore) == [];
        continue;
      }
      var time := if chore.dueTime == [] then "08:00" else chore.dueTime;
      assert time == ChoreTime(chore);
      var notifTime := NotificationTime(chore.dueDate, time, minutes, clock);
      if notifTime.None? {
        assert each(chore) == [];
        continue;
      }
      var hash := HashStringToNumber(chore.id);
      var id := ChoreOffset + hash;
      assert id == ChoreId(chore.id);
      assert each(chore) == [Notice(id, notifTime.value, "Don't forget: " + chore.title, ChoreKind, chore.id)];
      built := built + [Notice(id, notifTime.value, "Don't forget: " + chore.title, ChoreKind, chore.id)];
    }
    assert chores[..|chores|] == chores;
    count := |built|;
  }

  /** A reminder as the scheduler reads it: `isActive` may be absent, a null text is "". */
  datatype ReminderData = ReminderData(id: string, title: string, description: string,
                                       startTime: string, isActive: Option<bool>)

  /** Only `isActive === false` skips a reminder; a missing start time does too. */
  predicate ReminderScheduled(r: ReminderData)
  {
    r.isActive != Some(false) && r.startTime != []
  }

  /** The start time less the lead, or NaN when the start does not parse. */
  function ReminderFireTime(r: ReminderData, minutes: int, clock: Clock): Moment
  {
    match clock.parseInstant(r.startTime)
    case None => InvalidDate
    case Some(start) => At(start - minutes * 60 * 1000)
  }

  function ReminderBody(r: ReminderData): string
  {
    r.title + (if r.description != [] then ": " + r.description else "")
  }

  function ReminderNotice(r: ReminderData, minutes: int, clock: Clock): (n: seq<Notice>)
    ensures |n| <= 1
    ensures |n| == 1 <==> ReminderScheduled(r)
                          && !(ReminderFireTime(r, minutes, clock).At? && ReminderFireTime(r, minutes, clock).ms <= clock.now)
    ensures |n| == 1 ==> n[0].id == ReminderId(r.id) && n[0].at == ReminderFireTime(r, minutes, clock)
                         && n[0].kind == ReminderKind && n[0].refId == r.id
  {
    if !ReminderScheduled(r) then []
    else
      var at := ReminderFireTime(r, minutes, clock);
      if at.At? && at.ms <= clock.now then []
      else [Notice(ReminderId(r.id), at, ReminderBody(r), ReminderKind, r.id)]
  }

  function ReminderNotices(reminders: seq<ReminderData>, minutes: int, clock: Clock): seq<Notice>
  {
    FlatMap(reminders, (r: ReminderData) => ReminderNotice(r, minutes, clock))
  }

  /** At most one notice per reminder, each in the reminder range and after now when valid. */
  lemma ReminderNoticesShape(reminders: seq<ReminderData>, minutes: int, clock: Clock)
    ensures |ReminderNotices(reminders, minutes, clock)| <= |reminders|
    ensures forall k :: 0 <= k < |ReminderNotices(reminders, minutes, clock)| ==>
              var n := ReminderNotices(reminders, minutes, clock)[k];
              ReminderOffset <= n.id < ReminderOffset + HashRange && n.kind == ReminderKind
              && (n.at.At? ==> n.at.ms > clock.now)
  {
    var f := (r: ReminderData) => ReminderNotice(r, minutes, clock);
    FlatMapBound(reminders, f, 1);
    FlatMapAll(reminders, f, (n: Notice) => ReminderOffset <= n.id < ReminderOffset + HashRange
                                            && n.kind == ReminderKind && (n.at.At? ==> n.at.ms > clock.now));
  }

  method ScheduleReminders(reminders: seq<ReminderData>, settings: Settings, native: bool, clock: Clock)
    returns (count: int, built: seq<Notice>)
    ensures !native || !settings.remindersEnabled ==> count == 0 && built == []
    ensures native && settings.remindersEnabled ==>
              built == ReminderNotices(reminders, settings.remindersMinutes, clock) && count == |built|
  {
    if !native || !settings.remindersEnabled {
      return 0, [];
    }
    var minutes := settings.remindersMinutes;
    built := [];
    ghost var each := (r: ReminderData) => ReminderNotice(r, minutes, clock);
    for i := 0 to |reminders|
      invariant built == FlatMap(reminders[..i], each)
    {
      var reminder := reminders[i];
      FlatMapSnoc(reminders, i, each);
      if reminder.isActive == Some(false) {
        assert each(reminder) == [];
        continue;
      }
      if reminder.startTime == [] {
        assert each(reminder) == [];
        continue;
      }
      var start := clock.parseInstant(reminder.startTime);
      var notifTime := if start.Some? then At(start.value - minutes * 60 * 1000) else InvalidDate;
      assert notifTime == ReminderFireTime(reminder, minutes, clock);
      if notifTime.At? && notifTime.ms <= clock.now {
        assert each(reminder) == [];
        continue;
      }
      var hash := HashStringToNumber(reminder.id);
      var id := ReminderOffset + hash;
      assert id == ReminderId(reminder.id);
      assert each(reminder) == [Notice(id, notifTime, ReminderBody(reminder), ReminderKind, reminder.id)];
      built := built + [Notice(id, notifTime, ReminderBody(reminder), ReminderKind, reminder.id)];
    }
    assert reminders[..|reminders|] == reminders;
    count := |built|;
  }
}

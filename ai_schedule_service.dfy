/**
 * The Java schedule-text interpreter (AIScheduleService.processScheduleText):
 * the model's reply is cleaned of code fences and decoded into loosely typed
 * items; each item with a type and a title is built into a chore, calendar
 * event, medication or grocery item with its defaults, saved, counted and
 * echoed; every failure maps to one fixed message.
 *
 * The outbound model call, Jackson's decoder and LocalDateTime.parse are
 * parameters: `reply` (None when callOpenAI threw), `readJson` (None on a
 * JsonProcessingException) and `parse`. A LocalDateTime is seconds since
 * local 1970-01-01T00:00, a LocalDate a day number.
 */
module AIScheduleService {
  import opened Wrappers
  import opened Text
  import opened Json
  import opened JsNum
  import opened Fold

  const MsgNoKey := "AI feature requires OpenAI API key. Please configure OPENAI_API_KEY in your environment."
  const MsgNoResponse := "Could not get a response from AI. Please try again."
  const MsgNothingFound := "I couldn't identify any tasks, events, medications, or grocery items in your message. Please try being more specific."
  const MsgNothingSaved := "I understood your message but couldn't save any items. Please try again."
  const MsgSuccess := "Successfully processed your schedule!"
  const MsgNotUnderstood := "Sorry, I couldn't understand that. Please try again with clearer details."

  const SecondsPerDay := 86400
  const SecondsPerHour := 3600
  const DefaultChorePoints := 10
  const MedicationInventory := 30
  const GroceryLeadDays := 7

  /** A LocalDateTime: seconds since local midnight of 1970-01-01. */
  type DateTime = int
  /** A LocalDate: days since 1970-01-01. */
  type Date = int

  /** The signed-in user: only the ids copied onto saved documents. */
  datatype User = User(id: Option<string>, householdId: Option<string>)

  /** What `(String) item.get(key)` yields. */
  datatype StringCast = Null | Str(s: string) | ClassCast

  function CastString(item: Obj, key: string): (r: StringCast)
    ensures r == Null <==> key !in item || item[key] == JNull
    ensures r.Str? <==> key in item && item[key].JStr?
    ensures r.Str? ==> item[key] == JStr(r.s)
  {
    if key !in item then Null
    else match item[key]
      case JNull => Null
      case JStr(s) => Str(s)
      case _ => ClassCast
  }

  function AsOption(c: StringCast): Option<string>
  {
    if c.Str? then Some(c.s) else None
  }

  // ---------------------------------------------------------------- decoding

  /** What readValue into List<Map<String,Object>> yields for a decoded document. */
  datatype ItemList = Items(entries: seq<Option<Obj>>) | NullList

  /** Jackson's mapping of a document onto a list of maps: JSON null is a null
      list, an array of objects and nulls is that list (a null element stays
      null), anything else is a mismatch (None). */
  function ToItemList(doc: Json): (r: Option<ItemList>)
    ensures r == Some(NullList) <==> doc == JNull
    ensures r.Some? && r.value.Items? ==> doc.JArr? && |r.value.entries| == |doc.elems|
  {
    match doc
    case JNull => Some(NullList)
    case JArr(es) =>
      if forall k :: 0 <= k < |es| ==> es[k].JObj? || es[k].JNull? then
        Some(Items(seq(|es|, k requires 0 <= k < |es| => if es[k].JObj? then Some(es[k].fields) else None)))
      else None
    case _ => None
  }

  /** The fence removal of parseAIResponse on trimmed text: drop a leading
      "```json", then a leading "```", then a trailing "```". */
  function Unfence(c0: string): string
  {
    var c1 := if StartsWith(c0, "```json") then c0[7..] else c0;
    var c2 := if StartsWith(c1, "```") then c1[3..] else c1;
    if EndsWith(c2, "```") then c2[..|c2| - 3] else c2
  }

  /** The cleaning of parseAIResponse: trim, remove the fences, trim again. */
  function StripFences(response: string): string
  {
    JavaTrim(Unfence(JavaTrim(response)))
  }

  /** parseAIResponse: a blank reply, a decoding failure and a mismatched
      document all give the empty list; nothing here throws. */
  function ParseAIResponse(response: string, readJson: string -> Option<Json>): (r: ItemList)
    ensures JavaIsBlank(response) ==> r == Items([])
    ensures !JavaIsBlank(response) && readJson(StripFences(response)).None? ==> r == Items([])
    ensures r == NullList <==> !JavaIsBlank(response) && readJson(StripFences(response)) == Some(JNull)
  {
    if JavaIsBlank(response) then Items([])
    else match readJson(StripFences(response))
      case None => Items([])
      case Some(doc) =>
        match ToItemList(doc)
        case None => Items([])
        case Some(l) => l
  }

  // ---------------------------------------------------------------- fences

  /** A JSON array text: starts with '[' and ends with ']'. */
  predicate ArrayText(t: string)
  {
    |t| >= 2 && t[0] == '[' && t[|t| - 1] == ']'
  }

  lemma CleanArrayText(t: string)
    requires ArrayText(t)
    ensures !IsJavaTrimmable(t[0]) && !IsJavaTrimmable(t[|t| - 1])
    ensures !StartsWith(t, "```") && !EndsWith(t, "```")
  {
    if |t| >= 3 {
      assert t[..3][0] == t[0];
      assert t[|t| - 3..][2] == t[|t| - 1];
    }
  }

  lemma UnfenceBare(t: string)
    requires ArrayText(t)
    ensures Unfence(t) == t
  {
    CleanArrayText(t);
  }

  /** A fence around text that starts with neither '`' nor 'j' comes off. */
  lemma UnfenceFenced(tag: string, inner: string)
    requires tag == "```json" || tag == "```"
    requires inner != [] && inner[0] != '`' && inner[0] != 'j'
    ensures Unfence(tag + inner + "```") == inner
  {
    var c0 := tag + inner + "```";
    assert c0[|tag|] == inner[0];
    if tag == "```" {
      assert !StartsWith(c0, "```json") by { assert |c0| >= 7 ==> c0[..7][3] == c0[3]; }
      assert StartsWith(c0, "```") by { assert c0[..3] == "```"; }
      assert c0[3..] == inner + "```";
    } else {
      assert StartsWith(c0, "```json") by { assert c0[..7] == "```json"; }
      assert c0[7..] == inner + "```";
    }
    var c1 := inner + "```";
    assert !StartsWith(c1, "```") by { assert |c1| >= 3 ==> c1[..3][0] == inner[0]; }
    assert EndsWith(c1, "```") by { assert c1[|c1| - 3..] == "```"; }
    assert c1[..|c1| - 3] == inner;
  }

  /** A bare array, with white space around it, is cleaned to itself. */
  lemma StripFencesBare(w1: string, t: string, w2: string)
    requires AllSatisfy(w1, IsJavaTrimmable) && AllSatisfy(w2, IsJavaTrimmable)
    requires ArrayText(t)
    ensures StripFences(w1 + t + w2) == t
  {
    CleanArrayText(t);
    TrimPadded(w1, t, w2, IsJavaTrimmable);
    assert JavaTrim(w1 + t + w2) == t;
    UnfenceBare(t);
    TrimPadded([], t, [], IsJavaTrimmable);
    assert [] + t + [] == t;
    assert JavaTrim(t) == t;
  }

  /** A fenced array, with white space inside the fence, cleans to the bare array. */
  lemma StripFencesFenced(tag: string, w2: string, t: string, w3: string)
    requires tag == "```json" || tag == "```"
    requires AllSatisfy(w2, IsJavaTrimmable) && AllSatisfy(w3, IsJavaTrimmable)
    requires ArrayText(t)
    ensures StripFences(tag + w2 + t + w3 + "```") == t
  {
    CleanArrayText(t);
    var inner := w2 + t + w3;
    var body := tag + w2 + t + w3 + "```";
    assert body == tag + inner + "```";
    assert body[0] == '`' && body[|body| - 1] == '`';
    TrimStops(body, IsJavaTrimmable);
    assert inner[0] == (if w2 != [] then w2[0] else t[0]);
    UnfenceFenced(tag, inner);
    TrimPadded(w2, t, w3, IsJavaTrimmable);
  }

  /** Two non-blank replies that clean to the same text decode alike. */
  lemma SameCleaning(r1: string, r2: string, readJson: string -> Option<Json>)
    requires !JavaIsBlank(r1) && !JavaIsBlank(r2)
    requires StripFences(r1) == StripFences(r2)
    ensures ParseAIResponse(r1, readJson) == ParseAIResponse(r2, readJson)
  {
  }

  lemma FencedCleansAsBare(tag: string, w2: string, t: string, w3: string)
    requires tag == "```json" || tag == "```"
    requires AllSatisfy(w2, IsJavaTrimmable) && AllSatisfy(w3, IsJavaTrimmable)
    requires ArrayText(t)
    ensures StripFences(tag + w2 + t + w3 + "```") == StripFences(t)
  {
    StripFencesFenced(tag, w2, t, w3);
    CleanArrayText(t);
    TrimStops(t, IsJavaTrimmable);
    UnfenceBare(t);
  }

  lemma NotBlank(s: string)
    requires s != [] && (s[0] == '`' || s[0] == '[')
    ensures !JavaIsBlank(s)
  {
    assert !IsJavaWhitespace(s[0]);
  }

  /** The property the fence stripping is for: an array in a "```json" or
      "```" fence, with white space inside the fence, decodes to the same items
      as the bare array. */
  lemma FencedParsesAsBare(tag: string, w2: string, t: string, w3: string, readJson: string -> Option<Json>)
    requires tag == "```json" || tag == "```"
    requires AllSatisfy(w2, IsJavaTrimmable) && AllSatisfy(w3, IsJavaTrimmable)
    requires ArrayText(t)
    ensures ParseAIResponse(tag + w2 + t + w3 + "```", readJson) == ParseAIResponse(t, readJson)
  {
    var f := tag + w2 + t + w3 + "```";
    FencedCleansAsBare(tag, w2, t, w3);
    assert f[0] == tag[0];
    NotBlank(f);
    NotBlank(t);
    SameCleaning(f, t, readJson);
  }

  // ---------------------------------------------------------------- documents

  datatype Chore = Chore(
    title: Option<string>, description: Option<string>, dueDate: DateTime,
    points: int, completed: bool, householdId: Option<string>, createdBy: Option<string>,
    assignedToId: Option<string>, startTime: Option<DateTime>, completedAt: Option<DateTime>)

  datatype EventType = FAMILY | SCHOOL | MEDICAL | OTHER

  datatype CalendarEvent = CalendarEvent(
    title: Option<string>, description: Option<string>, startTime: DateTime, endTime: DateTime,
    eventType: EventType, participantIds: seq<string>, householdId: Option<string>, createdBy: Option<string>)

  datatype Medication = Medication(
    name: Option<string>, dosage: Option<string>, instructions: Option<string>,
    morning: bool, afternoon: bool, evening: bool, inventory: int, householdId: Option<string>,
    assignedToId: Option<string>)

  datatype Category = PRODUCE | DAIRY | MEAT | PANTRY | OTHER

  datatype GroceryItem = GroceryItem(
    name: Option<string>, category: Category, neededByDate: Option<Date>, checked: bool,
    addedById: Option<string>, householdId: Option<string>)

  /** A saved document, tagged with the repository it went to. */
  datatype Record =
    | ChoreRecord(chore: Chore)
    | EventRecord(event: CalendarEvent)
    | MedicationRecord(medication: Medication)
    | GroceryRecord(grocery: GroceryItem)

  /** The lower-cased item type that produces a record of this kind. */
  function KindName(r: Record): string
  {
    match r
    case ChoreRecord(_) => "chore"
    case EventRecord(_) => "event"
    case MedicationRecord(_) => "medication"
    case GroceryRecord(_) => "grocery"
  }

  /** A builder either returns its document or throws (a cast or a null dereference). */
  datatype Built<T> = Built(value: T) | Threw

  /** parseDateTime: null or blank is null; otherwise what the ISO_LOCAL_DATE_TIME parser gives. */
  function ParseDateTime(s: Option<string>, parse: string -> Option<DateTime>): (r: Option<DateTime>)
    ensures s.None? || JavaIsBlank(s.value) ==> r.None?
  {
    if s.None? || JavaIsBlank(s.value) then None else parse(s.value)
  }

  /** LocalDateTime.now().plusDays(1).withHour(10).withMinute(0): the seconds are kept. */
  function TomorrowAtTen(now: DateTime): (r: DateTime)
    ensures r / SecondsPerDay == now / SecondsPerDay + 1
    ensures (r % SecondsPerDay) / SecondsPerHour == 10 && (r % SecondsPerHour) / 60 == 0
    ensures r % 60 == now % 60
  {
    ClockAt(now / SecondsPerDay + 1, 10, 0, now % 60);
    (now / SecondsPerDay + 1) * SecondsPerDay + 10 * SecondsPerHour + now % 60
  }

  /** The date-time at day d, hour h, minute m and second x reads back its fields. */
  lemma ClockAt(d: int, h: int, m: int, x: int)
    requires 0 <= h < 24 && 0 <= m < 60 && 0 <= x < 60
    ensures var r := d * SecondsPerDay + h * SecondsPerHour + m * 60 + x;
            && r / SecondsPerDay == d && (r % SecondsPerDay) / SecondsPerHour == h
            && (r % SecondsPerHour) / 60 == m && r % 60 == x
  {
    var r := d * SecondsPerDay + h * SecondsPerHour + m * 60 + x;
    var dayPart := h * SecondsPerHour + m * 60 + x;
    var hourPart := m * 60 + x;
    assert r / SecondsPerDay == d && r % SecondsPerDay == dayPart by { DivMod(r, SecondsPerDay, d, dayPart); }
    assert dayPart / SecondsPerHour == h by { DivMod(dayPart, SecondsPerHour, h, hourPart); }
    assert r % SecondsPerHour == hourPart by { DivMod(r, SecondsPerHour, d * 24 + h, hourPart); }
    assert hourPart / 60 == m by { DivMod(hourPart, 60, m, x); }
    assert r % 60 == x by { DivMod(r, 60, (d * 24 + h) * 60 + m, x); }
  }

  /** The chore's points: absent or null is 10, a number is its intValue, anything else a ClassCastException. */
  function ChorePoints(item: Obj): Option<int>
  {
    if "points" !in item || item["points"] == JNull then Some(DefaultChorePoints)
    else if item["points"].JNum? then Some(ToInt32(item["points"].n))
    else None
  }

  function CreateChore(item: Obj, user: User, now: DateTime, parse: string -> Option<DateTime>): Built<Chore>
  {
    var dt := CastString(item, "dateTime");
    var title := CastString(item, "title");
    var description := CastString(item, "description");
    var points := ChorePoints(item);
    if dt.ClassCast? || title.ClassCast? || description.ClassCast? || points.None? then Threw
    else
      var due := ParseDateTime(AsOption(dt), parse);
      Built(Chore(AsOption(title), AsOption(description), due.GetOr(now + SecondsPerDay),
                  points.value, false, user.householdId, user.id, None, None, None))
  }

  function CreateEvent(item: Obj, user: User, now: DateTime, parse: string -> Option<DateTime>): Built<CalendarEvent>
  {
    var dt := CastString(item, "dateTime");
    var endDt := CastString(item, "endDateTime");
    var title := CastString(item, "title");
    var description := CastString(item, "description");
    if dt.ClassCast? || endDt.ClassCast? || title.ClassCast? || description.ClassCast? then Threw
    else
      var start := ParseDateTime(AsOption(dt), parse).GetOr(TomorrowAtTen(now));
      var end := ParseDateTime(AsOption(endDt), parse).GetOr(start + SecondsPerHour);
      Built(CalendarEvent(AsOption(title), AsOption(description), start, end, EventType.OTHER, [],
                          user.householdId, user.id))
  }

  /** `times` as the medication builder reads it: absent is the empty list, a
      list is itself, null or anything else throws (None). */
  function MedicationTimes(item: Obj): Option<seq<Json>>
  {
    if "times" !in item then Some([])
    else if item["times"].JArr? then Some(item["times"].elems)
    else None
  }

  /** `dosage`: absent is "As prescribed", null stays null, a non-string throws. */
  function MedicationDosage(item: Obj): Option<Option<string>>
  {
    if "dosage" !in item then Some(Some("As prescribed"))
    else match item["dosage"]
      case JNull => Some(None)
      case JStr(s) => Some(Some(s))
      case _ => None
  }

  function CreateMedication(item: Obj, user: User): Built<Medication>
  {
    var times := MedicationTimes(item);
    var dosage := MedicationDosage(item);
    var title := CastString(item, "title");
    var description := CastString(item, "description");
    if times.None? || dosage.None? || title.ClassCast? || description.ClassCast? then Threw
    else
      var ts := times.value;
      Built(Medication(AsOption(title), dosage.value, AsOption(description),
                       JStr("morning") in ts, JStr("afternoon") in ts, JStr("evening") in ts,
                       MedicationInventory, user.householdId, None))
  }

  /** Category.valueOf: the enum constant with exactly that name. */
  function CategoryValueOf(name: string): Option<Category>
  {
    if name == "PRODUCE" then Some(PRODUCE)
    else if name == "DAIRY" then Some(DAIRY)
    else if name == "MEAT" then Some(MEAT)
    else if name == "PANTRY" then Some(PANTRY)
    else if name == "OTHER" then Some(Category.OTHER)
    else None
  }

  /** The grocery category: absent is "OTHER"; a string is looked up upper-cased,
      falling back to OTHER; null or a non-string throws (None). */
  function GroceryCategory(item: Obj): Option<Category>
  {
    if "category" !in item then Some(Category.OTHER)
    else match item["category"]
      case JStr(s) => Some(CategoryValueOf(Upper(s)).GetOr(Category.OTHER))
      case _ => None
  }

  function CreateGroceryItem(item: Obj, user: User, now: DateTime): Built<GroceryItem>
  {
    var category := GroceryCategory(item);
    var title := CastString(item, "title");
    if category.None? || title.ClassCast? then Threw
    else
      Built(GroceryItem(AsOption(title), category.value, Some(now / SecondsPerDay + GroceryLeadDays), false,
                        user.id, user.householdId))
  }

  // ---------------------------------------------------------------- the loop

  /** One entry of the response's item list (ScheduleResponse.ParsedItem). */
  datatype ParsedItem = ParsedItem(
    itemType: string, title: string, description: Option<string>, dateTime: Option<string>, points: Option<int>)

  /** The loop's variables: documents saved so far, the echoed items and the four counters. */
  datatype LoopState = LoopState(
    saved: seq<Record>, items: seq<ParsedItem>,
    chores: nat, events: nat, medications: nat, groceries: nat)

  const Start := LoopState([], [], 0, 0, 0, 0)

  predicate KnownKind(kind: string)
  {
    kind == "chore" || kind == "event" || kind == "medication" || kind == "grocery"
  }

  /** The switch on the lower-cased type: the document the matching builder makes. */
  function BuildRecord(kind: string, item: Obj, user: User, now: DateTime,
                       parse: string -> Option<DateTime>): (r: Built<Record>)
    requires KnownKind(kind)
    ensures r.Built? ==> KindName(r.value) == kind
  {
    if kind == "chore" then
      match CreateChore(item, user, now, parse)
      case Built(c) => Built(ChoreRecord(c))
      case Threw => Threw
    else if kind == "event" then
      match CreateEvent(item, user, now, parse)
      case Built(e) => Built(EventRecord(e))
      case Threw => Threw
    else if kind == "medication" then
      match CreateMedication(item, user)
      case Built(m) => Built(MedicationRecord(m))
      case Threw => Threw
    else
      match CreateGroceryItem(item, user, now)
      case Built(g) => Built(GroceryRecord(g))
      case Threw => Threw
  }

  /** A successful save: the document is kept, the item echoed (a chore's with
      its points) and the counter of its kind incremented. */
  function Recorded(st: LoopState, r: Record, echo: ParsedItem): LoopState
  {
    st.(saved := st.saved + [r],
        items := st.items + [if r.ChoreRecord? then echo.(points := Some(r.chore.points)) else echo],
        chores := st.chores + (if r.ChoreRecord? then 1 else 0),
        events := st.events + (if r.EventRecord? then 1 else 0),
        medications := st.medications + (if r.MedicationRecord? then 1 else 0),
        groceries := st.groceries + (if r.GroceryRecord? then 1 else 0))
  }

  /** The body of the per-item try for an item whose type and title are
      non-blank strings: an unknown type is passed over; a builder or a save
      (`rejects` says which documents the store refuses) that throws drops the item. */
  function Dispatch(st: LoopState, item: Obj, echo: ParsedItem, rejects: Record -> bool,
                    user: User, now: DateTime, parse: string -> Option<DateTime>): LoopState
  {
    var kind := Lower(echo.itemType);
    if !KnownKind(kind) then st
    else
      match BuildRecord(kind, item, user, now, parse)
      case Threw => st
      case Built(r) => if rejects(r) then st else Recorded(st, r, echo)
  }

  /** One iteration of the for-loop over the parsed items. The casts of type,
      title, description and dateTime happen before the per-item try, so a
      non-string there (or a null element) ends the whole request. */
  function Step(st: LoopState, entry: Option<Obj>, rejects: Record -> bool,
                user: User, now: DateTime, parse: string -> Option<DateTime>): Progress<LoopState>
  {
    match entry
    case None => Aborted(st)
    case Some(item) =>
      match CastString(item, "type")
      case ClassCast => Aborted(st)
      case Null => Running(st)
      case Str(t) =>
        if JavaIsBlank(t) then Running(st)
        else
          match CastString(item, "title")
          case ClassCast => Aborted(st)
          case Null => Running(st)
          case Str(title) =>
            if JavaIsBlank(title) then Running(st)
            else
              var description := CastString(item, "description");
              var dt := CastString(item, "dateTime");
              if description.ClassCast? || dt.ClassCast? then Aborted(st)
              else
                var echo := ParsedItem(t, title, AsOption(description), AsOption(dt), None);
                Running(Dispatch(st, item, echo, rejects, user, now, parse))
  }

  function StepWith(rejects: Record -> bool, user: User, now: DateTime,
                    parse: string -> Option<DateTime>): (LoopState, Option<Obj>) -> Progress<LoopState>
  {
    (st: LoopState, entry: Option<Obj>) => Step(st, entry, rejects, user, now, parse)
  }

  /** The loop over the given entries. */
  function RunItems(entries: seq<Option<Obj>>, rejects: Record -> bool, user: User, now: DateTime,
                    parse: string -> Option<DateTime>): Progress<LoopState>
  {
    Run(entries, Start, StepWith(rejects, user, now, parse))
  }

  /** What one pass of the loop body did: an exception escaped, the item was
      passed over, or a document was saved for it. */
  datatype EntryOutcome = Abort | Skip | Saved(record: Record, echo: ParsedItem)
  {
    function After(st: LoopState): Progress<LoopState>
    {
      match this
      case Abort => Aborted(st)
      case Skip => Running(st)
      case Saved(r, echo) => Running(Recorded(st, r, echo))
    }
  }

  // ---------------------------------------------------------------- the response

  datatype ScheduleResponse = ScheduleResponse(
    message: string, items: seq<ParsedItem>,
    choresCreated: nat, eventsCreated: nat, medicationsCreated: nat, groceriesCreated: nat)

  /** A failure response: a fixed message, no items and zero counters. */
  function Failure(message: string): ScheduleResponse
  {
    ScheduleResponse(message, [], 0, 0, 0, 0)
  }

  /** The response together with the documents saved on the way. */
  datatype Outcome = Outcome(response: ScheduleResponse, saved: seq<Record>)

  /** What processScheduleText answers and saves, as a function of the
      configured key, the model's reply, the decoder and the documents the
      store refuses. */
  function ScheduleOutcome(apiKey: Option<string>, reply: Option<string>, readJson: string -> Option<Json>,
                           rejects: Record -> bool, user: User, now: DateTime,
                           parse: string -> Option<DateTime>): (r: Outcome)
    ensures r.response.message == MsgSuccess <==> r.response.items != []
    ensures r.response.message != MsgSuccess ==> r.response == Failure(r.response.message)
    ensures apiKey.None? || JavaIsBlank(apiKey.value) ==> r == Outcome(Failure(MsgNoKey), [])
  {
    if apiKey.None? || JavaIsBlank(apiKey.value) then Outcome(Failure(MsgNoKey), [])
    else match reply
      case None => Outcome(Failure(MsgNotUnderstood), [])
      case Some(text) =>
        if JavaIsBlank(text) then Outcome(Failure(MsgNoResponse), [])
        else match ParseAIResponse(text, readJson)
          case NullList => Outcome(Failure(MsgNotUnderstood), [])
          case Items(es) =>
            if es == [] then Outcome(Failure(MsgNothingFound), [])
            else match RunItems(es, rejects, user, now, parse)
              case Aborted(s) => Outcome(Failure(MsgNotUnderstood), s.saved)
              case Running(s) =>
                if s.items == [] then Outcome(Failure(MsgNothingSaved), s.saved)
                else Outcome(ScheduleResponse(MsgSuccess, s.items, s.chores, s.events, s.medications, s.groceries),
                             s.saved)
  }

  // ---------------------------------------------------------------- loop invariants

  /** How many saved documents are of the given kind. */
  function CountKind(saved: seq<Record>, kind: string): nat
  {
    if saved == [] then 0
    else CountKind(saved[..|saved| - 1], kind) + (if KindName(saved[|saved| - 1]) == kind then 1 else 0)
  }

  lemma CountKindAppend(saved: seq<Record>, r: Record, kind: string)
    ensures CountKind(saved + [r], kind) == CountKind(saved, kind) + (if KindName(r) == kind then 1 else 0)
  {
    assert (saved + [r])[..|saved|] == saved;
  }

  /** The four kinds cover every document. */
  lemma {:induction false} CountKindTotal(saved: seq<Record>)
    ensures CountKind(saved, "chore") + CountKind(saved, "event") + CountKind(saved, "medication")
            + CountKind(saved, "grocery") == |saved|
  {
    if saved != [] {
      CountKindTotal(saved[..|saved| - 1]);
    }
  }

  /** One echo per saved document, in the same order, each echoing an item
      whose lower-cased type names that document's kind and carrying the
      points of a chore. */
  ghost predicate Aligned(st: LoopState)
  {
    && |st.items| == |st.saved|
    && (forall k :: 0 <= k < |st.saved| ==> Lower(st.items[k].itemType) == KindName(st.saved[k]))
    && (forall k :: 0 <= k < |st.saved| ==>
          st.items[k].points == (if st.saved[k].ChoreRecord? then Some(st.saved[k].chore.points) else None))
  }

  /** Each counter counts the saved documents of its kind. */
  ghost predicate Counted(st: LoopState)
  {
    && st.chores == CountKind(st.saved, "chore")
    && st.events == CountKind(st.saved, "event")
    && st.medications == CountKind(st.saved, "medication")
    && st.groceries == CountKind(st.saved, "grocery")
  }

  /** What the loop keeps true. */
  ghost predicate Consistent(st: LoopState)
  {
    Aligned(st) && Counted(st)
  }

  lemma RecordAligned(st: LoopState, r: Record, echo: ParsedItem)
    requires Aligned(st)
    requires Lower(echo.itemType) == KindName(r) && echo.points.None?
    ensures Aligned(Recorded(st, r, echo))
  {
    var e := if r.ChoreRecord? then echo.(points := Some(r.chore.points)) else echo;
    var st' := Recorded(st, r, echo);
    assert st'.saved == st.saved + [r] && st'.items == st.items + [e];
    forall k | 0 <= k < |st'.saved|
      ensures Lower(st'.items[k].itemType) == KindName(st'.saved[k])
      ensures st'.items[k].points == (if st'.saved[k].ChoreRecord? then Some(st'.saved[k].chore.points) else None)
    {
      if k < |st.saved| {
        assert st'.items[k] == st.items[k] && st'.saved[k] == st.saved[k];
      } else {
        assert st'.items[k] == e && st'.saved[k] == r;
      }
    }
  }

  lemma RecordCounted(st: LoopState, r: Record, echo: ParsedItem)
    requires Counted(st)
    ensures Counted(Recorded(st, r, echo))
  {
    assert Recorded(st, r, echo).saved == st.saved + [r];
    CountKindAppend(st.saved, r, "chore");
    CountKindAppend(st.saved, r, "event");
    CountKindAppend(st.saved, r, "medication");
    CountKindAppend(st.saved, r, "grocery");
  }

  /** Recording a save keeps the invariant and only appends. */
  lemma RecordConsistent(st: LoopState, r: Record, echo: ParsedItem)
    requires Consistent(st)
    requires Lower(echo.itemType) == KindName(r) && echo.points.None?
    ensures Consistent(Recorded(st, r, echo))
    ensures Recorded(st, r, echo).saved == st.saved + [r]
  {
    RecordAligned(st, r, echo);
    RecordCounted(st, r, echo);
  }

  /** A dispatched item either leaves the loop state alone or appends exactly
      one document and one echo and increments exactly its counter. */
  lemma DispatchConsistent(st: LoopState, item: Obj, echo: ParsedItem, rejects: Record -> bool,
                           user: User, now: DateTime, parse: string -> Option<DateTime>)
    requires Consistent(st)
    requires echo.points.None?
    ensures var st' := Dispatch(st, item, echo, rejects, user, now, parse);
            Consistent(st') && (st' == st || exists r :: st'.saved == st.saved + [r])
  {
    var kind := Lower(echo.itemType);
    if KnownKind(kind) {
      var b := BuildRecord(kind, item, user, now, parse);
      if b.Built? && !rejects(b.value) {
        RecordConsistent(st, b.value, echo);
      }
    }
  }

  /** Every iteration keeps the invariant, also the one an exception ends. */
  lemma StepConsistent(st: LoopState, entry: Option<Obj>, rejects: Record -> bool,
                       user: User, now: DateTime, parse: string -> Option<DateTime>)
    requires Consistent(st)
    ensures var p := Step(st, entry, rejects, user, now, parse);
            Consistent(p.Current()) && (p.Current() == st || exists r :: p.Current().saved == st.saved + [r])
  {
    if entry.Some? && CastString(entry.value, "type").Str? && CastString(entry.value, "title").Str? {
      var item := entry.value;
      var echo := ParsedItem(CastString(item, "type").s, CastString(item, "title").s,
                             AsOption(CastString(item, "description")), AsOption(CastString(item, "dateTime")), None);
      DispatchConsistent(st, item, echo, rejects, user, now, parse);
    }
  }

  lemma {:induction false} RunConsistent(entries: seq<Option<Obj>>, rejects: Record -> bool,
                                         user: User, now: DateTime, parse: string -> Option<DateTime>)
    ensures Consistent(RunItems(entries, rejects, user, now, parse).Current())
  {
    if entries != [] {
      var init := entries[..|entries| - 1];
      RunConsistent(init, rejects, user, now, parse);
      var p := RunItems(init, rejects, user, now, parse);
      if p.Running? {
        StepConsistent(p.state, entries[|entries| - 1], rejects, user, now, parse);
      }
    }
  }

  /** The counters of the response add up to its number of items, and on
      success the saved documents are exactly as many as the echoed items. */
  lemma CountersSumToItems(apiKey: Option<string>, reply: Option<string>, readJson: string -> Option<Json>,
                           rejects: Record -> bool, user: User, now: DateTime, parse: string -> Option<DateTime>)
    ensures var r := ScheduleOutcome(apiKey, reply, readJson, rejects, user, now, parse).response;
            r.choresCreated + r.eventsCreated + r.medicationsCreated + r.groceriesCreated == |r.items|
    ensures var o := ScheduleOutcome(apiKey, reply, readJson, rejects, user, now, parse);
            o.response.message == MsgSuccess ==> |o.saved| == |o.response.items|
  {
    var o := ScheduleOutcome(apiKey, reply, readJson, rejects, user, now, parse);
    if o.response.message == MsgSuccess {
      var es := ParseAIResponse(reply.value, readJson).entries;
      var s := RunItems(es, rejects, user, now, parse).state;
      assert o == Outcome(ScheduleResponse(MsgSuccess, s.items, s.chores, s.events, s.medications, s.groceries),
                          s.saved);
      RunConsistent(es, rejects, user, now, parse);
      ConsistentSums(s);
    }
  }

  /** In a consistent loop state the counters add up to the echoes, one per saved document. */
  lemma ConsistentSums(st: LoopState)
    requires Consistent(st)
    ensures st.chores + st.events + st.medications + st.groceries == |st.items| == |st.saved|
  {
    CountKindTotal(st.saved);
  }

  /** Once an exception has escaped, the loop is over: later entries change nothing. */
  lemma AbortPersists(pre: seq<Option<Obj>>, post: seq<Option<Obj>>, rejects: Record -> bool,
                      user: User, now: DateTime, parse: string -> Option<DateTime>)
    requires RunItems(pre, rejects, user, now, parse).Aborted?
    ensures RunItems(pre + post, rejects, user, now, parse) == RunItems(pre, rejects, user, now, parse)
  {
    RunAbortPersists(pre, post, Start, StepWith(rejects, user, now, parse));
  }

  /** One pass of the loop body, as HandleEntry reports it, extends the run
      over the first i entries; an abort there is the answer for all of them. */
  lemma LoopAdvance(es: seq<Option<Obj>>, i: nat, st: LoopState, outcome: EntryOutcome, rejects: Record -> bool,
                    user: User, now: DateTime, parse: string -> Option<DateTime>)
    requires i < |es|
    requires RunItems(es[..i], rejects, user, now, parse) == Running(st)
    requires Step(st, es[i], rejects, user, now, parse) == outcome.After(st)
    ensures outcome.Abort? ==> RunItems(es, rejects, user, now, parse) == Aborted(st)
    ensures !outcome.Abort? ==> RunItems(es[..i + 1], rejects, user, now, parse) == outcome.After(st)
  {
    assert es[..i + 1] == es[..i] + [es[i]];
    RunAppend(es[..i], es[i], Start, StepWith(rejects, user, now, parse));
    if outcome.Abort? {
      AbortPersists(es[..i + 1], es[i + 1..], rejects, user, now, parse);
      assert es[..i + 1] + es[i + 1..] == es;
    }
  }

  /** Documents saved earlier stay saved: the saved list only grows. */
  lemma {:induction false} SavedOnlyGrows(pre: seq<Option<Obj>>, post: seq<Option<Obj>>, rejects: Record -> bool,
                                          user: User, now: DateTime, parse: string -> Option<DateTime>)
    ensures var a := RunItems(pre, rejects, user, now, parse).Current().saved;
            var b := RunItems(pre + post, rejects, user, now, parse).Current().saved;
            |a| <= |b| && b[..|a|] == a
    decreases |post|
  {
    if post == [] {
      assert pre + post == pre;
    } else {
      var init := post[..|post| - 1];
      SavedOnlyGrows(pre, init, rejects, user, now, parse);
      assert pre + post == (pre + init) + [post[|post| - 1]];
      RunAppend(pre + init, post[|post| - 1], Start, StepWith(rejects, user, now, parse));
      RunConsistent(pre + init, rejects, user, now, parse);
      var p := RunItems(pre + init, rejects, user, now, parse);
      if p.Running? {
        StepConsistent(p.state, post[|post| - 1], rejects, user, now, parse);
      }
    }
  }

  // ---------------------------------------------------------------- skipped and dropped items

  /** An item the loop passes over before the try: null or blank type or title. */
  predicate SkippedBeforeTry(item: Obj)
  {
    var t := CastString(item, "type");
    var title := CastString(item, "title");
    t.Null? || (t.Str? && JavaIsBlank(t.s))
    || (t.Str? && !JavaIsBlank(t.s) && (title.Null? || (title.Str? && JavaIsBlank(title.s))))
  }

  /** An item that reaches the switch: non-blank string type and title, and
      string-or-null description and dateTime. */
  predicate ReachesSwitch(item: Obj)
  {
    var t := CastString(item, "type");
    var title := CastString(item, "title");
    t.Str? && !JavaIsBlank(t.s) && title.Str? && !JavaIsBlank(title.s)
    && !CastString(item, "description").ClassCast? && !CastString(item, "dateTime").ClassCast?
  }

  /** An item the loop goes past without effect: skipped before the try, of
      an unknown type, or dropped because its builder or its save threw. */
  predicate PassedOver(entry: Option<Obj>, rejects: Record -> bool, user: User, now: DateTime,
                       parse: string -> Option<DateTime>)
  {
    entry.Some? &&
    (SkippedBeforeTry(entry.value)
     || (ReachesSwitch(entry.value)
         && var kind := Lower(CastString(entry.value, "type").s);
            (!KnownKind(kind)
             || BuildRecord(kind, entry.value, user, now, parse).Threw?
             || rejects(BuildRecord(kind, entry.value, user, now, parse).value))))
  }

  /** An item that reaches the switch goes to the per-item try. */
  lemma StepReachesDispatch(st: LoopState, item: Obj, rejects: Record -> bool,
                            user: User, now: DateTime, parse: string -> Option<DateTime>)
    requires ReachesSwitch(item)
    ensures Step(st, Some(item), rejects, user, now, parse)
            == Running(Dispatch(st, item, ParsedItem(CastString(item, "type").s, CastString(item, "title").s,
                                                     AsOption(CastString(item, "description")),
                                                     AsOption(CastString(item, "dateTime")), None),
                                rejects, user, now, parse))
  {
  }

  /** A passed-over item leaves the loop's variables as they were. */
  lemma PassedOverStep(st: LoopState, entry: Option<Obj>, rejects: Record -> bool,
                       user: User, now: DateTime, parse: string -> Option<DateTime>)
    requires PassedOver(entry, rejects, user, now, parse)
    ensures Step(st, entry, rejects, user, now, parse) == Running(st)
  {
  }

  /** The loop goes on past a skipped or dropped item as if it were not in
      the list: removing it changes neither the response nor the saved documents. */
  lemma PassedOverItemIsAsIfAbsent(pre: seq<Option<Obj>>, x: Option<Obj>, post: seq<Option<Obj>>,
                                   rejects: Record -> bool, user: User, now: DateTime,
                                   parse: string -> Option<DateTime>)
    requires PassedOver(x, rejects, user, now, parse)
    ensures RunItems(pre + [x] + post, rejects, user, now, parse) == RunItems(pre + post, rejects, user, now, parse)
  {
    var step := StepWith(rejects, user, now, parse);
    forall st
      ensures step(st, x) == Running(st)
    {
      PassedOverStep(st, x, rejects, user, now, parse);
    }
    RunSkip(pre, x, post, Start, step);
  }

  // ---------------------------------------------------------------- outcome precedence

  /** The fixed messages and their order: key, then model call, then reply,
      then decoding. Every failure answers with no items and zero counters
      (ScheduleOutcome's own contract). */
  lemma OutcomePrecedence(apiKey: Option<string>, reply: Option<string>, readJson: string -> Option<Json>,
                          rejects: Record -> bool, user: User, now: DateTime, parse: string -> Option<DateTime>)
    ensures var o := ScheduleOutcome(apiKey, reply, readJson, rejects, user, now, parse);
            var keyOk := apiKey.Some? && !JavaIsBlank(apiKey.value);
            && (!keyOk ==> o.response.message == MsgNoKey && o.saved == [])
            && (keyOk && reply.None? ==> o.response.message == MsgNotUnderstood && o.saved == [])
            && (keyOk && reply.Some? && JavaIsBlank(reply.value) ==> o.response.message == MsgNoResponse && o.saved == [])
            && (keyOk && reply.Some? && !JavaIsBlank(reply.value) && ParseAIResponse(reply.value, readJson) == Items([]) ==>
                  o.response.message == MsgNothingFound && o.saved == [])
            && (keyOk && reply.Some? && !JavaIsBlank(reply.value) && ParseAIResponse(reply.value, readJson) == NullList ==>
                  o.response.message == MsgNotUnderstood && o.saved == [])
  {
  }

  /** The messages of the loop: an escaped exception is "couldn't understand"
      (the saves before it persist), nothing echoed is "couldn't save",
      otherwise success with the loop's counters. */
  lemma LoopOutcome(apiKey: string, text: string, readJson: string -> Option<Json>,
                    rejects: Record -> bool, user: User, now: DateTime, parse: string -> Option<DateTime>)
    requires !JavaIsBlank(apiKey) && !JavaIsBlank(text)
    requires ParseAIResponse(text, readJson).Items? && ParseAIResponse(text, readJson).entries != []
    ensures var p := RunItems(ParseAIResponse(text, readJson).entries, rejects, user, now, parse);
            var o := ScheduleOutcome(Some(apiKey), Some(text), readJson, rejects, user, now, parse);
            && o.saved == p.Current().saved
            && (p.Aborted? ==> o.response.message == MsgNotUnderstood)
            && (p.Running? && p.state.items == [] ==> o.response.message == MsgNothingSaved)
            && (p.Running? && p.state.items != [] ==>
                  o.response == ScheduleResponse(MsgSuccess, p.state.items, p.state.chores, p.state.events,
                                                 p.state.medications, p.state.groceries))
  {
  }

  /** A reply the decoder rejects ends in "couldn't identify", with nothing saved. */
  lemma MalformedReplyFindsNothing(apiKey: string, text: string, readJson: string -> Option<Json>,
                                   rejects: Record -> bool, user: User, now: DateTime, parse: string -> Option<DateTime>)
    requires !JavaIsBlank(apiKey) && !JavaIsBlank(text)
    requires readJson(StripFences(text)).None?
    ensures ScheduleOutcome(Some(apiKey), Some(text), readJson, rejects, user, now, parse)
            == Outcome(Failure(MsgNothingFound), [])
  {
  }

  /** An item with only a type and a title: a chore called "Dishes". */
  const DishesItem: Obj := map["type" := JStr("chore"), "title" := JStr("Dishes")]

  /** The chore item reaches the switch with its type and title as the echo. */
  lemma DishesItemReaches()
    ensures ReachesSwitch(DishesItem)
    ensures CastString(DishesItem, "type") == Str("chore") && CastString(DishesItem, "title") == Str("Dishes")
    ensures CastString(DishesItem, "description") == Null && CastString(DishesItem, "dateTime") == Null
  {
    assert !JavaIsBlank("chore") by { assert !IsJavaWhitespace("chore"[0]); }
    assert !JavaIsBlank("Dishes") by { assert !IsJavaWhitespace("Dishes"[0]); }
  }

  /** The chore built for it carries the defaults. */
  lemma DishesChoreBuilt(user: User, now: DateTime, parse: string -> Option<DateTime>)
    ensures BuildRecord("chore", DishesItem, user, now, parse)
            == Built(ChoreRecord(Chore(Some("Dishes"), None, now + SecondsPerDay, DefaultChorePoints, false,
                                       user.householdId, user.id, None, None, None)))
  {
    assert CastString(DishesItem, "dateTime") == Null && CastString(DishesItem, "description") == Null;
    assert ChorePoints(DishesItem) == Some(DefaultChorePoints);
  }

  /** A chore item with only type and title is saved with the defaults. */
  lemma PlainChoreSaved(rejects: Record -> bool, user: User, now: DateTime, parse: string -> Option<DateTime>)
    requires !rejects(ChoreRecord(Chore(Some("Dishes"), None, now + SecondsPerDay, DefaultChorePoints, false,
                                        user.householdId, user.id, None, None, None)))
    ensures var p := Step(Start, Some(DishesItem), rejects, user, now, parse);
            p.Running? && p.state.saved == [ChoreRecord(Chore(Some("Dishes"), None, now + SecondsPerDay,
                                                               DefaultChorePoints, false, user.householdId, user.id, None, None, None))]
  {
    var r := ChoreRecord(Chore(Some("Dishes"), None, now + SecondsPerDay, DefaultChorePoints, false,
                               user.householdId, user.id, None, None, None));
    var echo := ParsedItem("chore", "Dishes", None, None, None);
    DishesItemReaches();
    LowerOfLowerAscii("chore");
    StepReachesDispatch(Start, DishesItem, rejects, user, now, parse);
    DishesChoreBuilt(user, now, parse);
    assert Dispatch(Start, DishesItem, echo, rejects, user, now, parse) == Recorded(Start, r, echo);
  }

  /** The cast of `type` sits before the per-item try: a numeric type after a
      saved chore ends the request with "couldn't understand that", yet the
      chore stays saved. */
  lemma CastFailureEscapes(rejects: Record -> bool, user: User, now: DateTime, parse: string -> Option<DateTime>)
    requires !rejects(ChoreRecord(Chore(Some("Dishes"), None, now + SecondsPerDay, DefaultChorePoints, false,
                                        user.householdId, user.id, None, None, None)))
    ensures var first := DishesItem;
            var second := map["type" := JNum(1), "title" := JStr("Walk dog")];
            var p := RunItems([Some(first), Some(second)], rejects, user, now, parse);
            p.Aborted? && |p.at.saved| == 1 && p.at.saved[0].ChoreRecord?
  {
    var first := DishesItem;
    var second := map["type" := JNum(1), "title" := JStr("Walk dog")];
    var step := StepWith(rejects, user, now, parse);
    PlainChoreSaved(rejects, user, now, parse);
    RunAppend([], Some(first), Start, step);
    assert [Some(first)] == [] + [Some(first)];
    var p1 := Run([Some(first)], Start, step);
    assert p1 == Step(Start, Some(first), rejects, user, now, parse);
    RunAppend([Some(first)], Some(second), Start, step);
    assert [Some(first), Some(second)] == [Some(first)] + [Some(second)];
    assert CastString(second, "type") == ClassCast;
    assert Step(p1.state, Some(second), rejects, user, now, parse) == Aborted(p1.state);
    assert Run([Some(first), Some(second)], Start, step) == Aborted(p1.state);
  }

  // ---------------------------------------------------------------- builder defaults

  /** Chore defaults: points are the numeric `points` as a 32-bit int, else 10
      when absent or null; the due date is the parsed `dateTime`, else now plus
      one day; the chore starts not completed. */
  lemma ChoreDefaults(item: Obj, user: User, now: DateTime, parse: string -> Option<DateTime>)
    requires CreateChore(item, user, now, parse).Built?
    ensures var c := CreateChore(item, user, now, parse).value;
            && !c.completed
            && ("points" !in item || item["points"] == JNull ==> c.points == 10)
            && (forall n :: "points" in item && item["points"] == JNum(n) ==> c.points == ToInt32(n))
            && (CastString(item, "dateTime").Null? ==> c.dueDate == now + SecondsPerDay)
            && (forall s :: CastString(item, "dateTime") == Str(s) && !JavaIsBlank(s) && parse(s).Some?
                  ==> c.dueDate == parse(s).value)
            && (forall s :: CastString(item, "dateTime") == Str(s) && !JavaIsBlank(s) && parse(s).None?
                  ==> c.dueDate == now + SecondsPerDay)
  {
  }

  /** A non-numeric `points` (a string, say) makes the chore builder throw. */
  lemma ChorePointsMustBeNumeric(item: Obj, user: User, now: DateTime, parse: string -> Option<DateTime>)
    requires "points" in item && item["points"] != JNull && !item["points"].JNum?
    ensures CreateChore(item, user, now, parse).Threw?
  {
  }

  /** A chore dated "2025-03-10T09:00:00" is due at exactly that instant. */
  lemma ChoreDueDateExample(user: User, now: DateTime, parse: string -> Option<DateTime>, t: DateTime)
    requires parse("2025-03-10T09:00:00") == Some(t)
    ensures var item := map["type" := JStr("chore"), "title" := JStr("Laundry"), "dateTime" := JStr("2025-03-10T09:00:00")];
            CreateChore(item, user, now, parse) == Built(Chore(Some("Laundry"), None, t, 10, false, user.householdId, user.id, None, None, None))
  {
    assert !JavaIsBlank("2025-03-10T09:00:00") by { assert !IsJavaWhitespace("2025-03-10T09:00:00"[0]); }
  }

  /** Event start: without a usable `dateTime`, tomorrow at 10:00 (same
      seconds); end: without a usable `endDateTime`, one hour after the start. */
  lemma EventDefaults(item: Obj, user: User, now: DateTime, parse: string -> Option<DateTime>)
    requires CreateEvent(item, user, now, parse).Built?
    requires ParseDateTime(AsOption(CastString(item, "dateTime")), parse).None?
    requires ParseDateTime(AsOption(CastString(item, "endDateTime")), parse).None?
    ensures var e := CreateEvent(item, user, now, parse).value;
            && e.startTime / SecondsPerDay == now / SecondsPerDay + 1
            && (e.startTime % SecondsPerDay) / SecondsPerHour == 10
            && (e.startTime % SecondsPerHour) / 60 == 0
            && e.endTime == e.startTime + SecondsPerHour
            && e.eventType == EventType.OTHER && e.participantIds == []
  {
    assert CreateEvent(item, user, now, parse).value.startTime == TomorrowAtTen(now);
  }

  /** A parsed end time is kept as it is, even when it is before the start. */
  lemma EventEndNotClamped(item: Obj, user: User, now: DateTime, parse: string -> Option<DateTime>,
                           start: string, end: string)
    requires CastString(item, "dateTime") == Str(start) && CastString(item, "endDateTime") == Str(end)
    requires !JavaIsBlank(start) && !JavaIsBlank(end)
    requires parse(start).Some? && parse(end).Some? && parse(end).value < parse(start).value
    requires !CastString(item, "title").ClassCast? && !CastString(item, "description").ClassCast?
    ensures var r := CreateEvent(item, user, now, parse);
            r.Built? && r.value.startTime == parse(start).value && r.value.endTime == parse(end).value
            && r.value.endTime < r.value.startTime
  {
  }

  /** Medication rules: each time-of-day flag is membership of that literal in
      `times`; `dosage` defaults to "As prescribed"; inventory is always 30. */
  lemma MedicationRules(item: Obj, user: User)
    requires CreateMedication(item, user).Built?
    ensures var m := CreateMedication(item, user).value;
            && m.inventory == MedicationInventory
            && ("times" !in item ==> !m.morning && !m.afternoon && !m.evening)
            && ("times" in item ==>
                  && item["times"].JArr?
                  && (m.morning <==> JStr("morning") in item["times"].elems)
                  && (m.afternoon <==> JStr("afternoon") in item["times"].elems)
                  && (m.evening <==> JStr("evening") in item["times"].elems))
            && ("dosage" !in item ==> m.dosage == Some("As prescribed"))
  {
  }

  /** A present but null `times` makes the medication builder throw (the
      null list is dereferenced). */
  lemma MedicationNullTimesThrows(item: Obj, user: User)
    requires "times" in item && item["times"] == JNull
    ensures CreateMedication(item, user).Threw?
  {
  }

  /** Grocery rules: the category is the upper-cased enum name, OTHER when
      absent or not a constant's name; needed by today plus seven days; unchecked. */
  lemma GroceryRules(item: Obj, user: User, now: DateTime)
    requires CreateGroceryItem(item, user, now).Built?
    ensures var g := CreateGroceryItem(item, user, now).value;
            && g.neededByDate == Some(now / SecondsPerDay + 7)
            && !g.checked
            && ("category" !in item ==> g.category == Category.OTHER)
            && (forall s :: "category" in item && item["category"] == JStr(s) ==>
                  g.category == (if CategoryValueOf(Upper(s)).Some? then CategoryValueOf(Upper(s)).value else Category.OTHER))
  {
  }

  /** Category names are looked up upper-cased: "dairy" is DAIRY. */
  lemma GroceryCategoryLowerCase(user: User, now: DateTime)
    ensures CreateGroceryItem(map["title" := JStr("Milk"), "category" := JStr("dairy")], user, now).value.category == DAIRY
  {
    UpperOfLowerAscii("dairy");
    assert Upper("dairy") == "DAIRY";
  }

  /** A name that is no category falls back to OTHER: "frozen" is OTHER. */
  lemma GroceryCategoryUnknown(user: User, now: DateTime)
    ensures CreateGroceryItem(map["title" := JStr("Peas"), "category" := JStr("frozen")], user, now).value.category == Category.OTHER
  {
    UpperOfLowerAscii("frozen");
    assert Upper("frozen")[0] == 'F' && |Upper("frozen")| == 6;
  }

  // ---------------------------------------------------------------- the service

  /** The counting after a save: the kind's counter goes up by one, the echo
      (with the chore's points for a chore) is added and the document kept. */
  method CountRecord(r: Record, echo: ParsedItem, done: seq<Record>, items: seq<ParsedItem>,
                     chores: nat, events: nat, medications: nat, groceries: nat)
      returns (done': seq<Record>, items': seq<ParsedItem>,
               chores': nat, events': nat, medications': nat, groceries': nat)
    ensures LoopState(done', items', chores', events', medications', groceries')
            == Recorded(LoopState(done, items, chores, events, medications, groceries), r, echo)
  {
    chores', events', medications', groceries' := chores, events, medications, groceries;
    if r.ChoreRecord? {
      chores' := chores + 1;
      items' := items + [echo.(points := Some(r.chore.points))];
    } else {
      if r.EventRecord? {
        events' := events + 1;
      } else if r.MedicationRecord? {
        medications' := medications + 1;
      } else {
        groceries' := groceries + 1;
      }
      items' := items + [echo];
    }
    done' := done + [r];
  }

  /** The four Mongo repositories as one store of tagged documents; `rejects`
      says which documents the database refuses (the save throws). */
  class Repository {
    var saved: seq<Record>
    const rejects: Record -> bool

    constructor (rejects: Record -> bool)
      ensures saved == [] && this.rejects == rejects
    {
      saved := [];
      this.rejects := rejects;
    }

    method Save(r: Record) returns (ok: bool)
      modifies this
      ensures ok == !rejects(r)
      ensures saved == if ok then old(saved) + [r] else old(saved)
    {
      ok := !rejects(r);
      if ok {
        saved := saved + [r];
      }
    }
  }

  class ScheduleService {
    const apiKey: Option<string>
    const repository: Repository

    constructor (apiKey: Option<string>, repository: Repository)
      ensures this.apiKey == apiKey && this.repository == repository
    {
      this.apiKey := apiKey;
      this.repository := repository;
    }

    /** One pass of the loop body: the casts before the try, then the
        try-block that builds, saves and so counts the item. */
    method HandleEntry(entry: Option<Obj>, user: User, now: DateTime, parse: string -> Option<DateTime>)
      returns (outcome: EntryOutcome)
      modifies repository
      ensures outcome.Saved? ==> repository.saved == old(repository.saved) + [outcome.record]
      ensures !outcome.Saved? ==> repository.saved == old(repository.saved)
      ensures forall st :: Step(st, entry, repository.rejects, user, now, parse) == outcome.After(st)
    {
      if entry.None? {
        return Abort;
      }
      var item := entry.value;
      var typeCast := CastString(item, "type");
      if typeCast.ClassCast? {
        return Abort;
      }
      if typeCast.Null? || JavaIsBlank(typeCast.s) {
        return Skip;
      }
      var titleCast := CastString(item, "title");
      if titleCast.ClassCast? {
        return Abort;
      }
      if titleCast.Null? || JavaIsBlank(titleCast.s) {
        return Skip;
      }
      var description := CastString(item, "description");
      var dateTime := CastString(item, "dateTime");
      if description.ClassCast? || dateTime.ClassCast? {
        return Abort;
      }
      var responseItem := ParsedItem(typeCast.s, titleCast.s, AsOption(description), AsOption(dateTime), None);
      var kind := Lower(typeCast.s);
      outcome := Skip;
      if kind == "chore" {
        var chore := CreateChore(item, user, now, parse);
        if chore.Built? {
          var ok := repository.Save(ChoreRecord(chore.value));
          if ok { outcome := Saved(ChoreRecord(chore.value), responseItem); }
        }
      } else if kind == "event" {
        var event := CreateEvent(item, user, now, parse);
        if event.Built? {
          var ok := repository.Save(EventRecord(event.value));
          if ok { outcome := Saved(EventRecord(event.value), responseItem); }
        }
      } else if kind == "medication" {
        var medication := CreateMedication(item, user);
        if medication.Built? {
          var ok := repository.Save(MedicationRecord(medication.value));
          if ok { outcome := Saved(MedicationRecord(medication.value), responseItem); }
        }
      } else if kind == "grocery" {
        var grocery := CreateGroceryItem(item, user, now);
        if grocery.Built? {
          var ok := repository.Save(GroceryRecord(grocery.value));
          if ok { outcome := Saved(GroceryRecord(grocery.value), responseItem); }
        }
      }
    }

    /** processScheduleText: answers as ScheduleOutcome says and appends
        exactly the documents ScheduleOutcome lists to the repository. */
    method ProcessScheduleText(reply: Option<string>, readJson: string -> Option<Json>,
                               user: User, now: DateTime, parse: string -> Option<DateTime>)
      returns (response: ScheduleResponse)
      modifies repository
      ensures var o := ScheduleOutcome(apiKey, reply, readJson, repository.rejects, user, now, parse);
              response == o.response && repository.saved == old(repository.saved) + o.saved
    {
      if apiKey.None? || JavaIsBlank(apiKey.value) {
        return Failure(MsgNoKey);
      }
      if reply.None? {
        return Failure(MsgNotUnderstood);
      }
      var aiResponse := reply.value;
      if JavaIsBlank(aiResponse) {
        return Failure(MsgNoResponse);
      }
      var parsed := ParseAIResponse(aiResponse, readJson);
      if parsed.NullList? {
        return Failure(MsgNotUnderstood);
      }
      var es := parsed.entries;
      if es == [] {
        return Failure(MsgNothingFound);
      }
      response := ProcessItems(es, user, now, parse);
    }

    /** The for-loop over the parsed items and the response it leads to. */
    method ProcessItems(es: seq<Option<Obj>>, user: User, now: DateTime, parse: string -> Option<DateTime>)
      returns (response: ScheduleResponse)
      modifies repository
      ensures var p := RunItems(es, repository.rejects, user, now, parse);
              && repository.saved == old(repository.saved) + p.Current().saved
              && response == (if p.Aborted? then Failure(MsgNotUnderstood)
                              else if p.state.items == [] then Failure(MsgNothingSaved)
                              else ScheduleResponse(MsgSuccess, p.state.items, p.state.chores, p.state.events,
                                                    p.state.medications, p.state.groceries))
    {
      ghost var base := repository.saved;
      var done: seq<Record> := [];
      var chores, events, medications, groceries := 0, 0, 0, 0;
      var items: seq<ParsedItem> := [];
      var i := 0;
      assert es[..0] == [];
      while i < |es|
        invariant 0 <= i <= |es|
        invariant repository.saved == base + done
        invariant RunItems(es[..i], repository.rejects, user, now, parse)
                  == Running(LoopState(done, items, chores, events, medications, groceries))
      {
        ghost var st := LoopState(done, items, chores, events, medications, groceries);
        var outcome := HandleEntry(es[i], user, now, parse);
        LoopAdvance(es, i, st, outcome, repository.rejects, user, now, parse);
        if outcome.Abort? {
          return Failure(MsgNotUnderstood);
        }
        if outcome.Saved? {
          done, items, chores, events, medications, groceries :=
            CountRecord(outcome.record, outcome.echo, done, items, chores, events, medications, groceries);
        }
        i := i + 1;
      }
      assert es[..|es|] == es;
      if items == [] {
        return Failure(MsgNothingSaved);
      }
      return ScheduleResponse(MsgSuccess, items, chores, events, medications, groceries);
    }
  }
}

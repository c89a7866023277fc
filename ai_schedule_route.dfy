/**
 * The Express handler POST /api/ai/schedule of the web back end: free text
 * goes to the language model, whose reply is cleaned of Markdown fences and
 * decoded; every recognised item is counted and echoed, and, when a target
 * family is known, written to storage as a chore, reminder, grocery item or
 * medicine.
 *
 * The model call, JSON.parse, the family and user lookups, the time-zone
 * conversion and the clock are parameters; `rejects` says which documents
 * the storage refuses (the create call throws).
 */
module AiScheduleRoute {
  import opened Wrappers
  import opened Text
  import opened Json
  import opened JsNum
  import opened Fold
  import AIScheduleService

  const MsgNoText := "Please provide some text to process."
  const MsgNoKey := "AI feature requires OpenAI API key. Please configure OPENAI_API_KEY in your secrets."
  const MsgNoResponse := "Could not get a response from AI. Please try again."
  const MsgNothingFound := "I couldn't identify any tasks, reminders, medications, or grocery items in your message. Please try being more specific."
  const MsgNoValidItems := "I understood your message but couldn't identify any valid items."
  const MsgFailed := "Sorry, something went wrong. Please try again."

  const DefaultChorePoints := 5
  const MedicineInventory := 30

  /** The success message for a positive total. */
  function MsgCreated(total: nat): string
  {
    "Successfully created " + NatToString(total) + " item(s) from your input!"
  }

  // ---------------------------------------------------------------- parsing the reply

  /** The cleaning of parseAIResponse: trim, remove the fences, trim again. */
  function StripFences(response: string): string
  {
    JsTrim(AIScheduleService.Unfence(JsTrim(response)))
  }

  /** parseAIResponse: an empty reply and a JSON.parse failure give the empty
      array; otherwise whatever value the reply decodes to, array or not. */
  function ParseAIResponse(response: string, parseJson: string -> Option<Json>): (r: Json)
    ensures response == [] || parseJson(StripFences(response)).None? ==> r == JArr([])
    ensures response != [] && parseJson(StripFences(response)).Some? ==> r == parseJson(StripFences(response)).value
  {
    if response == [] then JArr([])
    else match parseJson(StripFences(response))
      case None => JArr([])
      case Some(v) => v
  }

  lemma NoJsSpaceAtArrayEnds(t: string)
    requires AIScheduleService.ArrayText(t)
    ensures !IsJsSpace(t[0]) && !IsJsSpace(t[|t| - 1])
  {
  }

  /** A bare array, with white space around it, is cleaned to itself. */
  lemma StripFencesBare(w1: string, t: string, w2: string)
    requires AllSatisfy(w1, IsJsSpace) && AllSatisfy(w2, IsJsSpace)
    requires AIScheduleService.ArrayText(t)
    ensures StripFences(w1 + t + w2) == t
  {
    var s := w1 + t + w2;
    NoJsSpaceAtArrayEnds(t);
    TrimPadded(w1, t, w2, IsJsSpace);
    assert JsTrim(s) == t;
    ArrayTrimsToItself(t);
    assert StripFences(s) == JsTrim(AIScheduleService.Unfence(t));
  }

  lemma BareArrayIsClean(t: string)
    requires AIScheduleService.ArrayText(t)
    ensures StripFences(t) == t
  {
    ArrayTrimsToItself(t);
    assert StripFences(t) == JsTrim(AIScheduleService.Unfence(t));
  }

  /** An array's text is unchanged by trimming and by fence removal. */
  lemma ArrayTrimsToItself(t: string)
    requires AIScheduleService.ArrayText(t)
    ensures JsTrim(t) == t && JsTrim(AIScheduleService.Unfence(t)) == t
  {
    NoJsSpaceAtArrayEnds(t);
    TrimStops(t, IsJsSpace);
    AIScheduleService.UnfenceBare(t);
  }

  /** A fenced array, with white space inside the fence, is cleaned to the bare array. */
  lemma StripFencesFenced(tag: string, w2: string, t: string, w3: string)
    requires tag == "```json" || tag == "```"
    requires AllSatisfy(w2, IsJsSpace) && AllSatisfy(w3, IsJsSpace)
    requires AIScheduleService.ArrayText(t)
    ensures StripFences(tag + w2 + t + w3 + "```") == t
  {
    NoJsSpaceAtArrayEnds(t);
    var inner := w2 + t + w3;
    var body := tag + w2 + t + w3 + "```";
    assert body == tag + inner + "```";
    assert body[0] == '`' && body[|body| - 1] == '`';
    TrimStops(body, IsJsSpace);
    assert inner[0] == (if w2 != [] then w2[0] else t[0]);
    AIScheduleService.UnfenceFenced(tag, inner);
    TrimPadded(w2, t, w3, IsJsSpace);
  }

  /** The property the fence stripping is for: an array in a "```json" or
      "```" fence, with white space inside the fence, decodes to the same
      value as the bare array. */
  lemma FencedParsesAsBare(tag: string, w2: string, t: string, w3: string, parseJson: string -> Option<Json>)
    requires tag == "```json" || tag == "```"
    requires AllSatisfy(w2, IsJsSpace) && AllSatisfy(w3, IsJsSpace)
    requires AIScheduleService.ArrayText(t)
    ensures ParseAIResponse(tag + w2 + t + w3 + "```", parseJson) == ParseAIResponse(t, parseJson)
  {
    StripFencesFenced(tag, w2, t, w3);
    BareArrayIsClean(t);
    SameCleaning(tag + w2 + t + w3 + "```", t, parseJson);
  }

  /** Two non-empty replies that clean to the same text decode alike. */
  lemma SameCleaning(r1: string, r2: string, parseJson: string -> Option<Json>)
    requires r1 != [] && r2 != [] && StripFences(r1) == StripFences(r2)
    ensures ParseAIResponse(r1, parseJson) == ParseAIResponse(r2, parseJson)
  {
  }

  /** What `parsedItems.length === 0` and `for (const item of parsedItems)`
      make of the decoded value: no items, the elements the loop visits, or a
      TypeError (null has no length; numbers, booleans and objects are not
      iterable). */
  datatype Listing = Empty | Elements(es: seq<Json>) | NotIterable

  function ListingOf(v: Json): (r: Listing)
    ensures r.Elements? ==> r.es != []
    ensures v.JArr? ==> r == (if v.elems == [] then Empty else Elements(v.elems))
    ensures r.Empty? <==> v == JArr([]) || v == JStr([])
                          || (v.JObj? && "length" in v.fields && v.fields["length"] == JNum(0))
  {
    match v
    case JArr(es) => if es == [] then Empty else Elements(es)
    case JStr(s) => if s == [] then Empty else Elements(seq(|s|, k requires 0 <= k < |s| => JStr([s[k]])))
    case JObj(f) => if "length" in f && f["length"] == JNum(0) then Empty else NotIterable
    case _ => NotIterable
  }

  // ---------------------------------------------------------------- documents

  /** A family member as getUsersByFamily returns it. */
  datatype Member = Member(id: string, name: Option<string>)

  /** The documents passed to createChore, createReminder, createGroceryItem
      and createMedicine. */
  datatype Doc =
    | ChoreDoc(familyId: Json, title: Json, dueDate: string, points: Json, status: string,
               assignedTo: Option<string>)
    | ReminderDoc(familyId: Json, title: Json, description: Option<Json>, reminderType: string,
                  scheduleType: string, startTime: int, endTime: Option<int>)
    | GroceryDoc(familyId: Json, name: Json, category: Json, store: Json, status: string)
    | MedicineDoc(familyId: Json, name: Json, dosage: Json, scheduleType: string, times: Json,
                  active: bool, inventory: int, startDate: Json, endDate: Json)

  /** The request's time zone, the lookups and the clock: `usersOf` is
      getUsersByFamily, `toUtc` is convertLocalToUTC (None when it throws on
      an unknown time zone), `now` is `new Date()` and `today` its ISO date. */
  datatype Env = Env(
    timezone: Option<Json>, usersOf: Json -> seq<Member>, toUtc: (Json, Json) -> Option<int>,
    now: int, today: string)

  /** `familyId || families[0]?.id`. */
  function TargetFamily(familyId: Option<Json>, firstFamilyId: Option<Json>): (r: Option<Json>)
    ensures TruthyField(familyId) ==> r == familyId
    ensures !TruthyField(familyId) ==> r == firstFamilyId
  {
    if TruthyField(familyId) then familyId else firstFamilyId
  }

  /** The name test of the assignee search, on the lower-cased, trimmed names. */
  predicate NameMatches(u: Member, searchName: string)
  {
    u.name.Some? && u.name.value != []
    && var userName := JsTrim(Lower(u.name.value));
       Contains(userName, searchName) || Contains(searchName, userName)
  }

  /** `users.find(...)`: the id of the first member whose name matches. */
  function FindAssignee(users: seq<Member>, searchName: string): (r: Option<string>)
    ensures r.Some? <==> exists k :: 0 <= k < |users| && NameMatches(users[k], searchName)
    ensures r.Some? ==> exists k :: 0 <= k < |users| && NameMatches(users[k], searchName)
                                   && users[k].id == r.value
                                   && forall j :: 0 <= j < k ==> !NameMatches(users[j], searchName)
  {
    if users == [] then None
    else if NameMatches(users[0], searchName) then Some(users[0].id)
    else
      var r := FindAssignee(users[1..], searchName);
      assert forall k :: 1 <= k < |users| ==> users[k] == users[1..][k - 1];
      if r.Some? then
        ghost var k :| 0 <= k < |users[1..]| && NameMatches(users[1..][k], searchName)
                       && users[1..][k].id == r.value
                       && forall j :: 0 <= j < k ==> !NameMatches(users[1..][j], searchName);
        assert users[k + 1] == users[1..][k];
        assert forall j :: 0 <= j < k + 1 ==> !NameMatches(users[j], searchName) by {
          forall j | 0 <= j < k + 1
            ensures !NameMatches(users[j], searchName)
          {
            if j > 0 { assert users[j] == users[1..][j - 1]; }
          }
        }
        r
      else r
  }

  /** The chore's assignee: None when `assignedToName` is truthy but not a
      string (toLowerCase throws), else the match, if any. */
  function ChoreAssignee(item: Obj, family: Json, env: Env): Option<Option<string>>
  {
    var n := Field(item, "assignedToName");
    if !TruthyField(n) then Some(None)
    else if !n.value.JStr? then None
    else Some(FindAssignee(env.usersOf(family), JsTrim(Lower(n.value.s))))
  }

  /** The chore's due date: the date part of `dateTime`, else today; None
      when `dateTime` is truthy but not a string (split throws). */
  function ChoreDueDate(item: Obj, env: Env): Option<string>
  {
    var d := Field(item, "dateTime");
    if !TruthyField(d) then Some(env.today)
    else if !d.value.JStr? then None
    else Some(Split(d.value.s, 'T')[0])
  }

  /** createChore's argument; None when building it throws. */
  function ChoreFor(item: Obj, family: Json, env: Env): Option<Doc>
    requires "title" in item
  {
    var assignee := ChoreAssignee(item, family, env);
    var due := ChoreDueDate(item, env);
    if assignee.None? || due.None? then None
    else Some(ChoreDoc(family, item["title"], due.value, OrElse(Field(item, "points"), JNum(DefaultChorePoints)),
                       "PENDING", assignee.value))
  }

  /** A start or end time: Some(None) when the field is falsy, else the
      converted time; None when the conversion throws. */
  function ReminderTime(item: Obj, key: string, env: Env): Option<Option<int>>
  {
    var v := Field(item, key);
    if !TruthyField(v) then Some(None)
    else match env.toUtc(v.value, OrElse(env.timezone, JStr("UTC")))
      case None => None
      case Some(t) => Some(Some(t))
  }

  /** createReminder's argument (for types "reminder" and "event"): the start
      defaults to now, the end to none. */
  function ReminderFor(item: Obj, family: Json, env: Env): Option<Doc>
    requires "title" in item
  {
    var start := ReminderTime(item, "dateTime", env);
    var end := ReminderTime(item, "endDateTime", env);
    if start.None? || end.None? then None
    else Some(ReminderDoc(family, item["title"], Field(item, "description"), "Custom", "ONCE",
                          start.value.GetOr(env.now), end.value))
  }

  /** createGroceryItem's argument. */
  function GroceryFor(item: Obj, family: Json): Doc
    requires "title" in item
  {
    GroceryDoc(family, item["title"], OrElse(Field(item, "category"), JStr("Other")),
               OrElse(Field(item, "store"), JNull), "NEEDED")
  }

  /** createMedicine's argument. */
  function MedicineFor(item: Obj, family: Json, env: Env): Doc
    requires "title" in item
  {
    MedicineDoc(family, item["title"], OrElse(Field(item, "dosage"), JNull), "DAILY",
                OrElse(Field(item, "times"), JArr([JStr("08:00")])), true, MedicineInventory,
                OrElse(Field(item, "startDate"), JStr(env.today)), OrElse(Field(item, "endDate"), JNull))
  }

  /** The cases of the switch on the lower-cased type. */
  predicate KnownKind(kind: string)
  {
    kind == "chore" || kind == "reminder" || kind == "event" || kind == "grocery" || kind == "medication"
  }

  /** The document the case for `kind` creates; None when building it throws. */
  function BuildDoc(kind: string, item: Obj, family: Json, env: Env): (r: Option<Doc>)
    requires KnownKind(kind) && "title" in item
    ensures r.Some? ==> r.value.familyId == family
  {
    if kind == "chore" then ChoreFor(item, family, env)
    else if kind == "reminder" || kind == "event" then ReminderFor(item, family, env)
    else if kind == "grocery" then Some(GroceryFor(item, family))
    else Some(MedicineFor(item, family, env))
  }

  // ---------------------------------------------------------------- the loop

  /** The loop's variables, with the documents created so far. */
  datatype Tally = Tally(
    created: seq<Doc>, items: seq<Json>,
    chores: nat, reminders: nat, groceries: nat, medications: nat)

  const Start := Tally([], [], 0, 0, 0, 0)

  /** A case of the switch ran to its `break`: the item is echoed, its
      counter incremented and the document, if one was created, kept. */
  function Recorded(st: Tally, kind: string, item: Json, doc: Option<Doc>): Tally
  {
    st.(created := if doc.Some? then st.created + [doc.value] else st.created,
        items := st.items + [item],
        chores := st.chores + (if kind == "chore" then 1 else 0),
        reminders := st.reminders + (if kind == "reminder" || kind == "event" then 1 else 0),
        groceries := st.groceries + (if kind == "grocery" then 1 else 0),
        medications := st.medications + (if kind == "medication" then 1 else 0))
  }

  /** One iteration of `for (const item of parsedItems)`. Reading a field of
      null, lower-casing a non-string type, a builder that throws and a
      refused create all leave the loop (and the try); an element without a
      truthy type and title, or of an unknown type, is passed over. */
  function Step(st: Tally, item: Json, target: Option<Json>, env: Env, rejects: Doc -> bool): Progress<Tally>
  {
    match item
    case JNull => Aborted(st)
    case JObj(o) =>
      var t := Field(o, "type");
      if !TruthyField(t) || !TruthyField(Field(o, "title")) then Running(st)
      else if !t.value.JStr? then Aborted(st)
      else Dispatch(st, Lower(t.value.s), o, target, env, rejects)
    case _ => Running(st)
  }

  /** The switch on the lower-cased type, for an object with a truthy title:
      an unknown type does nothing; without a target family the item is only
      counted; otherwise a throwing builder or a refused create leaves the loop. */
  function Dispatch(st: Tally, kind: string, o: Obj, target: Option<Json>, env: Env, rejects: Doc -> bool)
    : Progress<Tally>
    requires "title" in o
  {
    if !KnownKind(kind) then Running(st)
    else if !TruthyField(target) then Running(Recorded(st, kind, JObj(o), None))
    else
      var d := BuildDoc(kind, o, target.value, env);
      if d.None? || rejects(d.value) then Aborted(st) else Running(Recorded(st, kind, JObj(o), d))
  }

  /** An object with a truthy string type and a truthy title goes to the switch. */
  lemma StepReachesDispatch(st: Tally, o: Obj, t: string, target: Option<Json>, env: Env, rejects: Doc -> bool)
    requires Field(o, "type") == Some(JStr(t)) && t != [] && TruthyField(Field(o, "title"))
    ensures Step(st, JObj(o), target, env, rejects) == Dispatch(st, Lower(t), o, target, env, rejects)
  {
  }

  function StepWith(target: Option<Json>, env: Env, rejects: Doc -> bool): (Tally, Json) -> Progress<Tally>
  {
    (st: Tally, item: Json) => Step(st, item, target, env, rejects)
  }

  /** The loop over the given elements. */
  function RunItems(es: seq<Json>, target: Option<Json>, env: Env, rejects: Doc -> bool): Progress<Tally>
  {
    Run(es, Start, StepWith(target, env, rejects))
  }

  /** What one pass of the loop body did. */
  datatype ItemOutcome = Abort | Skip | Counted(kind: string, item: Json, doc: Option<Doc>)
  {
    function After(st: Tally): Progress<Tally>
    {
      match this
      case Abort => Aborted(st)
      case Skip => Running(st)
      case Counted(kind, item, doc) => Running(Recorded(st, kind, item, doc))
    }
  }

  // ---------------------------------------------------------------- the response

  datatype ScheduleResponse = ScheduleResponse(
    message: string, items: seq<Json>,
    choresCreated: nat, remindersCreated: nat, groceriesCreated: nat, medicationsCreated: nat)

  function Failure(message: string): ScheduleResponse
  {
    ScheduleResponse(message, [], 0, 0, 0, 0)
  }

  /** The response after the loop ran to its end. */
  function Summary(s: Tally): ScheduleResponse
  {
    var total := s.chores + s.reminders + s.groceries + s.medications;
    ScheduleResponse(if total > 0 then MsgCreated(total) else MsgNoValidItems,
                     s.items, s.chores, s.reminders, s.groceries, s.medications)
  }

  datatype Outcome = Outcome(response: ScheduleResponse, created: seq<Doc>)

  /** What the handler answers and creates, given the request's text, the
      configured key, the model's reply (None when callOpenAI returned null),
      the decoder, the target family and the storage's refusals. */
  function ScheduleOutcome(text: Option<string>, apiKey: Option<string>, reply: Option<string>,
                           parseJson: string -> Option<Json>, target: Option<Json>, env: Env,
                           rejects: Doc -> bool): (r: Outcome)
    ensures text.None? || JsTrim(text.value) == [] ==> r == Outcome(Failure(MsgNoText), [])
    ensures r.response.message != MsgNoText && r.response.message != MsgNoKey ==> apiKey.Some?
  {
    if text.None? || JsTrim(text.value) == [] then Outcome(Failure(MsgNoText), [])
    else if apiKey.None? || apiKey.value == [] then Outcome(Failure(MsgNoKey), [])
    else if reply.None? || reply.value == [] then Outcome(Failure(MsgNoResponse), [])
    else match ListingOf(ParseAIResponse(reply.value, parseJson))
      case NotIterable => Outcome(Failure(MsgFailed), [])
      case Empty => Outcome(Failure(MsgNothingFound), [])
      case Elements(es) =>
        match RunItems(es, target, env, rejects)
        case Aborted(s) => Outcome(Failure(MsgFailed), s.created)
        case Running(s) => Outcome(Summary(s), s.created)
  }

  // ---------------------------------------------------------------- loop invariants

  /** The counters add up to the echoed items, every created document has an
      echo, and each was created for the target family. */
  ghost predicate Consistent(st: Tally, target: Option<Json>)
  {
    && st.chores + st.reminders + st.groceries + st.medications == |st.items|
    && |st.created| <= |st.items|
    && (st.created != [] ==> TruthyField(target))
    && forall k :: 0 <= k < |st.created| ==> st.created[k].familyId == target.value
  }

  lemma RecordedConsistent(st: Tally, kind: string, item: Json, doc: Option<Doc>, target: Option<Json>)
    requires Consistent(st, target) && KnownKind(kind)
    requires doc.Some? ==> TruthyField(target) && doc.value.familyId == target.value
    ensures Consistent(Recorded(st, kind, item, doc), target)
  {
    var st' := Recorded(st, kind, item, doc);
    if doc.Some? {
      assert st'.created == st.created + [doc.value];
      assert forall k :: 0 <= k < |st.created| ==> st'.created[k] == st.created[k];
    }
  }

  lemma StepConsistent(st: Tally, item: Json, target: Option<Json>, env: Env, rejects: Doc -> bool)
    requires Consistent(st, target)
    ensures Consistent(Step(st, item, target, env, rejects).Current(), target)
  {
    if item.JObj? {
      var o := item.fields;
      var t := Field(o, "type");
      if TruthyField(t) && TruthyField(Field(o, "title")) && t.value.JStr? && KnownKind(Lower(t.value.s)) {
        var kind := Lower(t.value.s);
        if !TruthyField(target) {
          RecordedConsistent(st, kind, item, None, target);
        } else {
          var d := BuildDoc(kind, o, target.value, env);
          if d.Some? {
            RecordedConsistent(st, kind, item, d, target);
          }
        }
      }
    }
  }

  lemma {:induction false} RunConsistent(es: seq<Json>, target: Option<Json>, env: Env, rejects: Doc -> bool)
    ensures Consistent(RunItems(es, target, env, rejects).Current(), target)
  {
    if es != [] {
      var init := es[..|es| - 1];
      RunConsistent(init, target, env, rejects);
      var p := RunItems(init, target, env, rejects);
      if p.Running? {
        StepConsistent(p.state, es[|es| - 1], target, env, rejects);
      }
    }
  }

  /** In every response the four counters add up to the number of echoed
      items; the success message names that total and is given exactly when
      some item was recognised. */
  lemma CountersSumToItems(text: Option<string>, apiKey: Option<string>, reply: Option<string>,
                           parseJson: string -> Option<Json>, target: Option<Json>, env: Env,
                           rejects: Doc -> bool)
    ensures var r := ScheduleOutcome(text, apiKey, reply, parseJson, target, env, rejects).response;
            && r.choresCreated + r.remindersCreated + r.groceriesCreated + r.medicationsCreated == |r.items|
            && (r.items != [] ==> r.message == MsgCreated(|r.items|))
            && (r.items == [] ==> r == Failure(r.message))
            && (r.message == MsgCreated(|r.items|) <==> r.items != [])
  {
    if !(text.None? || JsTrim(text.value) == []) && !(apiKey.None? || apiKey.value == [])
       && !(reply.None? || reply.value == []) {
      var l := ListingOf(ParseAIResponse(reply.value, parseJson));
      if l.Elements? {
        var p := RunItems(l.es, target, env, rejects);
        RunConsistent(l.es, target, env, rejects);
        OutcomeOfElements(text.value, apiKey.value, reply.value, parseJson, target, env, rejects);
        var r := ScheduleOutcome(text, apiKey, reply, parseJson, target, env, rejects).response;
        if p.Running? {
          assert r == Summary(p.state);
          SummaryCounts(p.state, target);
        } else {
          assert r == Failure(MsgFailed);
        }
      }
    }
    SuccessOnlyWithItems(text, apiKey, reply, parseJson, target, env, rejects);
  }

  /** A response without items never carries the success message. */
  lemma SuccessOnlyWithItems(text: Option<string>, apiKey: Option<string>, reply: Option<string>,
                             parseJson: string -> Option<Json>, target: Option<Json>, env: Env,
                             rejects: Doc -> bool)
    ensures var r := ScheduleOutcome(text, apiKey, reply, parseJson, target, env, rejects).response;
            r.items == [] ==> r.message != MsgCreated(0)
  {
    FailureTextsAreNotSuccess(0);
    if !(text.None? || JsTrim(text.value) == []) && !(apiKey.None? || apiKey.value == [])
       && !(reply.None? || reply.value == []) {
      var l := ListingOf(ParseAIResponse(reply.value, parseJson));
      if l.Elements? {
        var p := RunItems(l.es, target, env, rejects);
        OutcomeOfElements(text.value, apiKey.value, reply.value, parseJson, target, env, rejects);
        if p.Running? {
          RunConsistent(l.es, target, env, rejects);
          SummaryCounts(p.state, target);
        }
      }
    }
  }

  /** No failure text can be mistaken for a success message: the success
      message is the only one ending in an exclamation mark. */
  lemma FailureTextsAreNotSuccess(total: nat)
    ensures MsgCreated(total) != MsgNoText && MsgCreated(total) != MsgNoKey
    ensures MsgCreated(total) != MsgNoResponse && MsgCreated(total) != MsgFailed
    ensures MsgCreated(total) != MsgNothingFound && MsgCreated(total) != MsgNoValidItems
  {
    var m := MsgCreated(total);
    assert m[|m| - 1] == '!';
  }

  /** After the guards, a listing of elements gives the loop's answer and
      the documents the loop created. */
  lemma OutcomeOfElements(text: string, apiKey: string, reply: string,
                          parseJson: string -> Option<Json>, target: Option<Json>, env: Env,
                          rejects: Doc -> bool)
    requires JsTrim(text) != [] && apiKey != [] && reply != []
    requires ListingOf(ParseAIResponse(reply, parseJson)).Elements?
    ensures var p := RunItems(ListingOf(ParseAIResponse(reply, parseJson)).es, target, env, rejects);
            ScheduleOutcome(Some(text), Some(apiKey), Some(reply), parseJson, target, env, rejects)
            == Outcome(if p.Aborted? then Failure(MsgFailed) else Summary(p.state), p.Current().created)
  {
  }

  /** The summary of a consistent loop: counters adding up to the echoes and
      the success message exactly when there is one. */
  lemma SummaryCounts(s: Tally, target: Option<Json>)
    requires Consistent(s, target)
    ensures var r := Summary(s);
            && r.choresCreated + r.remindersCreated + r.groceriesCreated + r.medicationsCreated == |r.items|
            && (r.items != [] ==> r.message == MsgCreated(|r.items|))
            && (r.items == [] ==> r == Failure(MsgNoValidItems))
            && (r.message == MsgCreated(|r.items|) <==> r.items != [])
  {
    SummaryMessage(s, target);
  }

  /** The summary's message is the success message exactly when some item
      was echoed. */
  lemma SummaryMessage(s: Tally, target: Option<Json>)
    requires Consistent(s, target)
    ensures Summary(s).message == MsgCreated(|s.items|) <==> s.items != []
  {
    if s.items == [] {
      FailureTextsAreNotSuccess(0);
    }
  }

  /** Every document the handler creates belongs to the target family, and
      without a truthy target nothing is created at all. */
  lemma CreatedForTargetFamily(text: Option<string>, apiKey: Option<string>, reply: Option<string>,
                               parseJson: string -> Option<Json>, target: Option<Json>, env: Env,
                               rejects: Doc -> bool)
    ensures var o := ScheduleOutcome(text, apiKey, reply, parseJson, target, env, rejects);
            && (!TruthyField(target) ==> o.created == [])
            && (forall k :: 0 <= k < |o.created| ==> o.created[k].familyId == target.value)
            && (o.response.message != MsgFailed ==> |o.created| <= |o.response.items|)
  {
    if !(text.None? || JsTrim(text.value) == []) && !(apiKey.None? || apiKey.value == [])
       && !(reply.None? || reply.value == []) {
      var l := ListingOf(ParseAIResponse(reply.value, parseJson));
      if l.Elements? {
        var p := RunItems(l.es, target, env, rejects);
        RunConsistent(l.es, target, env, rejects);
        OutcomeOfElements(text.value, apiKey.value, reply.value, parseJson, target, env, rejects);
        if p.Running? {
          assert Summary(p.state).items == p.state.items;
        }
      }
    }
  }

  /** The guards and their order: text, then key, then reply. None of them creates anything. */
  lemma GuardOrder(text: Option<string>, apiKey: Option<string>, reply: Option<string>,
                   parseJson: string -> Option<Json>, target: Option<Json>, env: Env, rejects: Doc -> bool)
    ensures var o := ScheduleOutcome(text, apiKey, reply, parseJson, target, env, rejects);
            var textOk := text.Some? && JsTrim(text.value) != [];
            var keyOk := apiKey.Some? && apiKey.value != [];
            && (textOk && !keyOk ==> o == Outcome(Failure(MsgNoKey), []))
            && (textOk && keyOk && (reply.None? || reply.value == []) ==> o == Outcome(Failure(MsgNoResponse), []))
  {
  }

  /** After the guards, the decoded value decides: no items means "couldn't
      identify", a value the loop cannot iterate means "something went wrong". */
  lemma ListingOutcomes(text: string, apiKey: string, reply: string,
                        parseJson: string -> Option<Json>, target: Option<Json>, env: Env, rejects: Doc -> bool)
    requires JsTrim(text) != [] && apiKey != [] && reply != []
    ensures var o := ScheduleOutcome(Some(text), Some(apiKey), Some(reply), parseJson, target, env, rejects);
            var l := ListingOf(ParseAIResponse(reply, parseJson));
            && (l.Empty? ==> o == Outcome(Failure(MsgNothingFound), []))
            && (l.NotIterable? ==> o == Outcome(Failure(MsgFailed), []))
  {
  }

  /** A reply JSON.parse rejects, after the guards, finds nothing. */
  lemma MalformedReplyFindsNothing(text: string, apiKey: string, reply: string,
                                   parseJson: string -> Option<Json>, target: Option<Json>, env: Env,
                                   rejects: Doc -> bool)
    requires JsTrim(text) != [] && apiKey != [] && reply != []
    requires parseJson(StripFences(reply)).None?
    ensures ScheduleOutcome(Some(text), Some(apiKey), Some(reply), parseJson, target, env, rejects)
            == Outcome(Failure(MsgNothingFound), [])
  {
  }

  /** A reply that decodes to a non-empty string is iterated character by
      character; no character is an object, so the answer is "couldn't
      identify any valid items". */
  lemma StringReplyHasNoValidItems(text: string, apiKey: string, reply: string, s: string,
                                   parseJson: string -> Option<Json>, target: Option<Json>, env: Env,
                                   rejects: Doc -> bool)
    requires JsTrim(text) != [] && apiKey != [] && reply != [] && s != []
    requires parseJson(StripFences(reply)) == Some(JStr(s))
    ensures ScheduleOutcome(Some(text), Some(apiKey), Some(reply), parseJson, target, env, rejects)
            == Outcome(Failure(MsgNoValidItems), [])
  {
    var es := seq(|s|, k requires 0 <= k < |s| => JStr([s[k]]));
    assert ListingOf(JStr(s)) == Elements(es);
    AllStringsPassedOver(es, target, env, rejects);
    assert Summary(Start) == Failure(MsgNoValidItems);
  }

  lemma {:induction false} AllStringsPassedOver(es: seq<Json>, target: Option<Json>, env: Env, rejects: Doc -> bool)
    requires forall k :: 0 <= k < |es| ==> es[k].JStr?
    ensures RunItems(es, target, env, rejects) == Running(Start)
  {
    if es != [] {
      var init := es[..|es| - 1];
      AllStringsPassedOver(init, target, env, rejects);
      assert Step(Start, es[|es| - 1], target, env, rejects) == Running(Start);
    }
  }

  // ---------------------------------------------------------------- passed-over and failing items

  /** An element the loop goes past without effect: not an object or null,
      an object without a truthy string type and truthy title, or one of an
      unknown type. */
  predicate PassedOver(item: Json)
  {
    !item.JNull? &&
    (!item.JObj?
     || var t := Field(item.fields, "type");
        !TruthyField(t) || !TruthyField(Field(item.fields, "title"))
        || (t.value.JStr? && !KnownKind(Lower(t.value.s))))
  }

  /** The loop goes on past such an element as if it were not in the list. */
  lemma PassedOverItemIsAsIfAbsent(pre: seq<Json>, x: Json, post: seq<Json>, target: Option<Json>, env: Env,
                                   rejects: Doc -> bool)
    requires PassedOver(x)
    ensures RunItems(pre + [x] + post, target, env, rejects) == RunItems(pre + post, target, env, rejects)
  {
    var step := StepWith(target, env, rejects);
    forall st
      ensures step(st, x) == Running(st)
    {
    }
    RunSkip(pre, x, post, Start, step);
  }

  /** Once an element has thrown, later elements change nothing: the request
      fails, and the documents created before the throw stay created. */
  lemma AbortPersists(pre: seq<Json>, post: seq<Json>, target: Option<Json>, env: Env, rejects: Doc -> bool)
    requires RunItems(pre, target, env, rejects).Aborted?
    ensures RunItems(pre + post, target, env, rejects) == RunItems(pre, target, env, rejects)
  {
    RunAbortPersists(pre, post, Start, StepWith(target, env, rejects));
  }

  /** One pass of the loop body, as HandleItem reports it, extends the run
      over the first i elements; an abort there is the answer for all of them. */
  lemma LoopAdvance(es: seq<Json>, i: nat, st: Tally, outcome: ItemOutcome, target: Option<Json>, env: Env,
                    rejects: Doc -> bool)
    requires i < |es|
    requires RunItems(es[..i], target, env, rejects) == Running(st)
    requires Step(st, es[i], target, env, rejects) == outcome.After(st)
    ensures outcome.Abort? ==> RunItems(es, target, env, rejects) == Aborted(st)
    ensures !outcome.Abort? ==> RunItems(es[..i + 1], target, env, rejects) == outcome.After(st)
  {
    assert es[..i + 1] == es[..i] + [es[i]];
    RunAppend(es[..i], es[i], Start, StepWith(target, env, rejects));
    if outcome.Abort? {
      AbortPersists(es[..i + 1], es[i + 1..], target, env, rejects);
      assert es[..i + 1] + es[i + 1..] == es;
    }
  }

  /** Without a target family a recognised item is still counted and echoed,
      though nothing is created for it. */
  lemma CountedWithoutFamily(st: Tally, o: Obj, target: Option<Json>, env: Env, rejects: Doc -> bool)
    requires !TruthyField(target)
    requires TruthyField(Field(o, "type")) && TruthyField(Field(o, "title")) && Field(o, "type").value.JStr?
    requires KnownKind(Lower(Field(o, "type").value.s))
    ensures var p := Step(st, JObj(o), target, env, rejects);
            && p == Running(Recorded(st, Lower(Field(o, "type").value.s), JObj(o), None))
            && p.state.created == st.created && p.state.items == st.items + [JObj(o)]
  {
  }

  /** A chore with only a type and a title. */
  const SweepItem: Obj := map["type" := JStr("Chore"), "title" := JStr("Sweep")]

  /** The type is matched case-insensitively and the chore gets 5 points, today's date and no assignee. */
  lemma SweepChoreCreated(st: Tally, family: Json, env: Env, rejects: Doc -> bool)
    requires Truthy(family)
    requires !rejects(ChoreDoc(family, JStr("Sweep"), env.today, JNum(5), "PENDING", None))
    ensures Step(st, JObj(SweepItem), Some(family), env, rejects)
            == Running(Recorded(st, "chore", JObj(SweepItem), Some(ChoreDoc(family, JStr("Sweep"), env.today,
                                                                             JNum(5), "PENDING", None))))
  {
    LowerChore();
    assert Field(SweepItem, "type") == Some(JStr("Chore")) && Field(SweepItem, "title") == Some(JStr("Sweep"));
    StepReachesDispatch(st, SweepItem, "Chore", Some(family), env, rejects);
    SweepChoreBuilt(family, env);
  }

  lemma LowerChore()
    ensures Lower("Chore") == "chore"
  {
    assert "Chore" == ['C'] + "hore";
    LowerAppend(['C'], "hore");
    LowerOfLowerAscii("hore");
    assert Lower(['C']) == LowerChar('C') + Lower([]);
  }

  lemma SweepChoreBuilt(family: Json, env: Env)
    ensures BuildDoc("chore", SweepItem, family, env)
            == Some(ChoreDoc(family, JStr("Sweep"), env.today, JNum(5), "PENDING", None))
  {
    assert Field(SweepItem, "assignedToName") == None && Field(SweepItem, "dateTime") == None;
    assert Field(SweepItem, "points") == None;
  }

  /** A builder that throws ends the request: a chore whose dateTime is a
      number (split is not a function). */
  lemma NumericDueDateThrows(st: Tally, o: Obj, family: Json, env: Env, rejects: Doc -> bool)
    requires Truthy(family) && Field(o, "type") == Some(JStr("chore")) && TruthyField(Field(o, "title"))
    requires Field(o, "dateTime") == Some(JNum(20250310))
    ensures Step(st, JObj(o), Some(family), env, rejects) == Aborted(st)
  {
    LowerOfLowerAscii("chore");
    StepReachesDispatch(st, o, "chore", Some(family), env, rejects);
    assert ChoreDueDate(o, env) == None;
  }

  // ---------------------------------------------------------------- document defaults

  /** Chore rules: `points || 5` (so 0 and absent become 5), the date part
      of a string dateTime (before the first 'T'), else today; status PENDING. */
  lemma ChoreRules(item: Obj, family: Json, env: Env)
    requires "title" in item && ChoreFor(item, family, env).Some?
    ensures var c := ChoreFor(item, family, env).value;
            && c.ChoreDoc? && c.status == "PENDING" && c.familyId == family && c.title == item["title"]
            && (Field(item, "points") == None || item["points"] == JNum(0) ==> c.points == JNum(5))
            && (forall n :: n != 0 && Field(item, "points") == Some(JNum(n)) ==> c.points == JNum(n))
            && (!TruthyField(Field(item, "dateTime")) ==> c.dueDate == env.today)
            && (!TruthyField(Field(item, "assignedToName")) ==> c.assignedTo == None)
  {
  }

  /** "2025-03-10T09:00" gives the due date "2025-03-10"; a date without a time is kept whole. */
  lemma ChoreDueDateOfDateTime(item: Obj, env: Env, date: string, time: string)
    requires 'T' !in date && (date != [] || time != [])
    requires Field(item, "dateTime") == Some(JStr(date + "T" + time))
    ensures ChoreDueDate(item, env) == Some(date)
  {
    assert date + "T" + time == date + ['T'] + time;
    SplitFirstPiece(date, 'T', time);
  }

  lemma ChoreDueDateOfDate(item: Obj, env: Env, date: string)
    requires 'T' !in date && date != []
    requires Field(item, "dateTime") == Some(JStr(date))
    ensures ChoreDueDate(item, env) == Some(date)
  {
    SplitWithoutSeparator(date, 'T');
  }

  /** The assignee is the first member whose trimmed, lower-cased name
      contains the search name or is contained in it. */
  lemma AssigneeIsFirstMatch(item: Obj, family: Json, env: Env, name: string)
    requires Field(item, "assignedToName") == Some(JStr(name)) && name != []
    ensures var users := env.usersOf(family);
            var search := JsTrim(Lower(name));
            && ChoreAssignee(item, family, env).Some?
            && (ChoreAssignee(item, family, env).value.Some? <==>
                  exists k :: 0 <= k < |users| && NameMatches(users[k], search))
  {
  }

  /** A search name that trims to nothing is contained in every name: the
      first member with a name is assigned. */
  lemma {:induction false} BlankNameMatchesFirstNamed(users: seq<Member>, k: nat)
    requires k < |users| && users[k].name.Some? && users[k].name.value != []
    requires forall j :: 0 <= j < k ==> users[j].name.None? || users[j].name.value == []
    ensures FindAssignee(users, "") == Some(users[k].id)
    decreases k
  {
    if k == 0 {
      assert StartsWith(JsTrim(Lower(users[0].name.value)), []);
      assert NameMatches(users[0], "");
    } else {
      assert !NameMatches(users[0], "");
      assert forall j :: 0 <= j < k - 1 ==> users[1..][j] == users[j + 1];
      BlankNameMatchesFirstNamed(users[1..], k - 1);
    }
  }

  /** Reminder rules: type Custom, schedule ONCE, start converted from the
      request's time zone (UTC when absent), else now; no end unless given. */
  lemma ReminderRules(item: Obj, family: Json, env: Env)
    requires "title" in item && ReminderFor(item, family, env).Some?
    ensures var r := ReminderFor(item, family, env).value;
            && r.ReminderDoc? && r.reminderType == "Custom" && r.scheduleType == "ONCE"
            && r.familyId == family && r.title == item["title"] && r.description == Field(item, "description")
            && (!TruthyField(Field(item, "dateTime")) ==> r.startTime == env.now)
            && (TruthyField(Field(item, "dateTime")) ==>
                  Some(r.startTime) == env.toUtc(item["dateTime"], OrElse(env.timezone, JStr("UTC"))))
            && (!TruthyField(Field(item, "endDateTime")) ==> r.endTime == None)
  {
  }

  /** Grocery rules: category "Other" and store null unless given, status NEEDED. */
  lemma GroceryRules(item: Obj, family: Json)
    requires "title" in item
    ensures var g := GroceryFor(item, family);
            && g.GroceryDoc? && g.status == "NEEDED" && g.name == item["title"]
            && (!TruthyField(Field(item, "category")) ==> g.category == JStr("Other"))
            && (!TruthyField(Field(item, "store")) ==> g.store == JNull)
  {
  }

  /** Medicine rules: daily at 08:00 unless times are given, active, 30 in
      stock, starting today unless a start date is given. */
  lemma MedicineRules(item: Obj, family: Json, env: Env)
    requires "title" in item
    ensures var m := MedicineFor(item, family, env);
            && m.MedicineDoc? && m.scheduleType == "DAILY" && m.active && m.inventory == 30
            && (!TruthyField(Field(item, "times")) ==> m.times == JArr([JStr("08:00")]))
            && (!TruthyField(Field(item, "startDate")) ==> m.startDate == JStr(env.today))
            && (!TruthyField(Field(item, "dosage")) ==> m.dosage == JNull)
            && (!TruthyField(Field(item, "endDate")) ==> m.endDate == JNull)
  {
  }

  // ---------------------------------------------------------------- the handler

  /** The storage's create calls as one list of documents; `rejects` says
      which documents it refuses (the call throws). */
  class Storage {
    var created: seq<Doc>
    const rejects: Doc -> bool

    constructor (rejects: Doc -> bool)
      ensures created == [] && this.rejects == rejects
    {
      created := [];
      this.rejects := rejects;
    }

    method Create(d: Doc) returns (ok: bool)
      modifies this
      ensures ok == !rejects(d)
      ensures created == if ok then old(created) + [d] else old(created)
    {
      ok := !rejects(d);
      if ok {
        created := created + [d];
      }
    }
  }

  /** The switch on the item's kind: its counter goes up by one, the item is
      echoed and the document, if one was created, kept. */
  method CountItem(kind: string, item: Json, doc: Option<Doc>, done: seq<Doc>, items: seq<Json>,
                   chores: nat, reminders: nat, groceries: nat, medications: nat)
      returns (done': seq<Doc>, items': seq<Json>, chores': nat, reminders': nat, groceries': nat, medications': nat)
    ensures Tally(done', items', chores', reminders', groceries', medications')
            == Recorded(Tally(done, items, chores, reminders, groceries, medications), kind, item, doc)
  {
    chores', reminders', groceries', medications' := chores, reminders, groceries, medications;
    if kind == "chore" {
      chores' := chores + 1;
    } else if kind == "reminder" || kind == "event" {
      reminders' := reminders + 1;
    } else if kind == "grocery" {
      groceries' := groceries + 1;
    } else if kind == "medication" {
      medications' := medications + 1;
    }
    items' := items + [item];
    done' := if doc.Some? then done + [doc.value] else done;
  }

  class ScheduleRoute {
    const apiKey: Option<string>
    const storage: Storage

    constructor (apiKey: Option<string>, storage: Storage)
      ensures this.apiKey == apiKey && this.storage == storage
    {
      this.apiKey := apiKey;
      this.storage := storage;
    }

    /** Stores the document a case built, if building it did not throw. */
    method CreateDoc(kind: string, item: Json, doc: Option<Doc>) returns (outcome: ItemOutcome)
      modifies storage
      ensures doc.Some? && !storage.rejects(doc.value) ==> outcome == Counted(kind, item, doc)
      ensures doc.None? || storage.rejects(doc.value) ==> outcome == Abort
      ensures storage.created == if outcome.Counted? then old(storage.created) + [doc.value] else old(storage.created)
    {
      if doc.None? {
        return Abort;
      }
      var ok := storage.Create(doc.value);
      if !ok {
        return Abort;
      }
      return Counted(kind, item, doc);
    }

    /** One pass of the loop body: the guard, then the switch. */
    method HandleItem(item: Json, target: Option<Json>, env: Env) returns (outcome: ItemOutcome)
      modifies storage
      ensures outcome.Counted? && outcome.doc.Some? ==> storage.created == old(storage.created) + [outcome.doc.value]
      ensures !(outcome.Counted? && outcome.doc.Some?) ==> storage.created == old(storage.created)
      ensures forall st :: Step(st, item, target, env, storage.rejects) == outcome.After(st)
    {
      if item.JNull? {
        return Abort;
      }
      if !item.JObj? {
        return Skip;
      }
      var o := item.fields;
      var itemType := Field(o, "type");
      if !TruthyField(itemType) || !TruthyField(Field(o, "title")) {
        return Skip;
      }
      if !itemType.value.JStr? {
        return Abort;
      }
      var kind := Lower(itemType.value.s);
      var family := TruthyField(target);
      if kind == "chore" {
        if !family {
          return Counted(kind, item, None);
        }
        outcome := CreateDoc(kind, item, ChoreFor(o, target.value, env));
      } else if kind == "reminder" || kind == "event" {
        if !family {
          return Counted(kind, item, None);
        }
        outcome := CreateDoc(kind, item, ReminderFor(o, target.value, env));
      } else if kind == "grocery" {
        if !family {
          return Counted(kind, item, None);
        }
        outcome := CreateDoc(kind, item, Some(GroceryFor(o, target.value)));
      } else if kind == "medication" {
        if !family {
          return Counted(kind, item, None);
        }
        outcome := CreateDoc(kind, item, Some(MedicineFor(o, target.value, env)));
      } else {
        outcome := Skip;
      }
    }

    /** The handler: answers as ScheduleOutcome says and creates exactly the
        documents it lists. */
    method Schedule(text: Option<string>, reply: Option<string>, parseJson: string -> Option<Json>,
                    target: Option<Json>, env: Env) returns (response: ScheduleResponse)
      modifies storage
      ensures var o := ScheduleOutcome(text, apiKey, reply, parseJson, target, env, storage.rejects);
              response == o.response && storage.created == old(storage.created) + o.created
    {
      if text.None? || JsTrim(text.value) == [] {
        return Failure(MsgNoText);
      }
      if apiKey.None? || apiKey.value == [] {
        return Failure(MsgNoKey);
      }
      if reply.None? || reply.value == [] {
        return Failure(MsgNoResponse);
      }
      var parsedItems := ListingOf(ParseAIResponse(reply.value, parseJson));
      if parsedItems.Empty? {
        return Failure(MsgNothingFound);
      }
      if parsedItems.NotIterable? {
        return Failure(MsgFailed);
      }
      response := ProcessItems(parsedItems.es, target, env);
    }

    /** The for-loop over the parsed elements and the response it leads to. */
    method ProcessItems(es: seq<Json>, target: Option<Json>, env: Env) returns (response: ScheduleResponse)
      modifies storage
      ensures var p := RunItems(es, target, env, storage.rejects);
              && storage.created == old(storage.created) + p.Current().created
              && response == (if p.Aborted? then Failure(MsgFailed) else Summary(p.state))
    {
      ghost var base := storage.created;
      var done: seq<Doc> := [];
      var choresCreated: nat, remindersCreated: nat, groceriesCreated: nat, medicationsCreated: nat := 0, 0, 0, 0;
      var responseItems: seq<Json> := [];
      var i := 0;
      assert es[..0] == [];
      while i < |es|
        invariant 0 <= i <= |es|
        invariant storage.created == base + done
        invariant RunItems(es[..i], target, env, storage.rejects)
                  == Running(Tally(done, responseItems, choresCreated, remindersCreated,
                                   groceriesCreated, medicationsCreated))
      {
        ghost var st := Tally(done, responseItems, choresCreated, remindersCreated,
                              groceriesCreated, medicationsCreated);
        var outcome := HandleItem(es[i], target, env);
        LoopAdvance(es, i, st, outcome, target, env, storage.rejects);
        if outcome.Abort? {
          return Failure(MsgFailed);
        }
        if outcome.Counted? {
          done, responseItems, choresCreated, remindersCreated, groceriesCreated, medicationsCreated :=
            CountItem(outcome.kind, outcome.item, outcome.doc, done, responseItems,
                      choresCreated, remindersCreated, groceriesCreated, medicationsCreated);
        }
        i := i + 1;
      }
      assert es[..|es|] == es;
      var totalCreated := choresCreated + remindersCreated + groceriesCreated + medicationsCreated;
      return ScheduleResponse(if totalCreated > 0 then MsgCreated(totalCreated) else MsgNoValidItems,
                              responseItems, choresCreated, remindersCreated, groceriesCreated,
                              medicationsCreated);
    }
  }
}

# WPCLife household planner — a verified model

WPCLife is a household planner. A family shares chores with points, a
calendar, medications with a dose log, reminders and a grocery list. A guardian
can also type free text ("buy milk, soccer practice Friday at 5") that a
language model turns into records. The repository holds two back ends for
that: a Spring service in Java and an Express server in TypeScript. It also
holds a React web client, a React Native mobile app and an Angular front end.

This project models in Dafny the parts of those programs that make decisions,
and proves what they promise.

- **The schedule-text interpreter, twice.**
  - `AIScheduleService` models the Java `processScheduleText`. It covers:
    - fence stripping and decoding;
    - the per-item casts that escape the per-item `try`;
    - the four builders with their defaults;
    - saving, counting and echoing;
    - the message that each outcome selects.
  - `AiScheduleRoute` models the Express `/api/ai/schedule` handler and its
    `parseAIResponse`.
  - Both are proved against declarative descriptions of their loops, with a
    store that may refuse a document.
- **The Express server's small rules.**
  - The login rate limiter (`LoginLimiter`).
  - Registration validation (`Registration`).
  - The chore-completion points award (`ChoreCompletion`).
- **The Spring controllers.**
  - `ChoreController`, `MedicationController` and `GroceryController`.
  - Each keeps a collection as a field (`MongoStore`).
- **The web client.**
  - The pages `GroceryPage`, `DashboardPage`, `CalendarPage`, `MedicationsPage`,
    `ChoresPage`, `RemindersPage`, `RegisterPage`, `ResetPassword`,
    `SettingsPage` and `KidLogin`.
  - The dashboard widgets: `DashboardWidgets` and `TodaySchedule`.
  - The rules shared between pages: `Medicine`, `GroceryItems` and `QuickInput`.
  - The notification rules (`Notifications`).
- **The mobile app.**
  - The screens `GroceryScreen`, `DashboardScreen`, `CalendarScreen`,
    `MedicationsScreen`, `ChoresScreen` and `RegisterScreen`.
- **The Angular front end.**
  - The dashboard (`DashboardComponent`).
  - The month grid (`CalendarComponent`).
- **The language runtimes the code relies on.**
  - JavaScript and Java string trimming and case mapping (`Text`).
  - `parseInt`, `Number` and 32-bit wrap-around (`JsNum`).
  - Stable sorting with a comparator (`Sorting`).
  - Array helpers (`Seqs`).
  - Objects used as records (`Records`).
  - Decoded JSON (`Json`) and optional values (`Wrappers`).
  - A loop that an exception may leave (`Fold`).

Outside inputs are parameters of the functions that need them:

- the language model's reply;
- JSON and date parsing;
- the current time;
- generated ids;
- the user and family lookups;
- whether a store accepts a document.

Where state changes in place in the source, the model is a class with
`modifies` clauses. Examples are the rate limiter's map, the controllers'
collections, the kid-login PIN slots, the reset-password steps, the dashboard
widget list and the Angular grid. Elsewhere it is functions over values.

An exception thrown by `callOpenAI` is caught by the outer handler and
answered with "Sorry, I couldn't understand that". "Could not get a response"
is only for a null or blank reply
(wpclife-backend/src/main/java/com/wpclife/service/AIScheduleService.java:77-82).

## Model

| member | source | states |
|---|---|---|
| AIScheduleService.CastString | wpclife-backend/src/main/java/com/wpclife/service/AIScheduleService.java:101-114 | the `(String) item.get(k)` cast gives null exactly when the key is absent or holds JSON null, and a string exactly when the value is a JSON string (anything else is a ClassCastException) |
| AIScheduleService.ToItemList | wpclife-backend/src/main/java/com/wpclife/service/AIScheduleService.java:249 | reading into `List<Map<String,Object>>`: JSON null gives a null list, and an array gives one entry per element |
| AIScheduleService.ParseAIResponse | wpclife-backend/src/main/java/com/wpclife/service/AIScheduleService.java:232-254 | a blank reply, or one whose cleaned text does not decode, gives the empty list; the result is a null list exactly when the cleaned text decodes to JSON null |
| AIScheduleService.CleanArrayText | wpclife-backend/src/main/java/com/wpclife/service/AIScheduleService.java:238-247 | text of a JSON array has no trimmable ends and no fence to remove |
| AIScheduleService.UnfenceBare | wpclife-backend/src/main/java/com/wpclife/service/AIScheduleService.java:239-247 | removing fences leaves bare array text as it is |
| AIScheduleService.UnfenceFenced | wpclife-backend/src/main/java/com/wpclife/service/AIScheduleService.java:239-247 | ```json or ``` plus inner text plus ``` loses both fences when the inner text starts with neither a backtick nor 'j' |
| AIScheduleService.StripFencesBare | wpclife-backend/src/main/java/com/wpclife/service/AIScheduleService.java:238-249 | white space around a bare array is cleaned away |
| AIScheduleService.StripFencesFenced | wpclife-backend/src/main/java/com/wpclife/service/AIScheduleService.java:238-249 | a fenced array with white space inside the fences cleans to the bare array |
| AIScheduleService.SameCleaning | wpclife-backend/src/main/java/com/wpclife/service/AIScheduleService.java:232-249 | two non-blank replies that clean to the same text give the same parsed list |
| AIScheduleService.FencedCleansAsBare | wpclife-backend/src/main/java/com/wpclife/service/AIScheduleService.java:238-249 | a fenced array and the bare array clean to the same text |
| AIScheduleService.FencedParsesAsBare | wpclife-backend/src/main/java/com/wpclife/service/AIScheduleService.java:232-249 | a fenced array reply parses exactly as the bare array reply |
| AIScheduleService.ParseDateTime | wpclife-backend/src/main/java/com/wpclife/service/AIScheduleService.java:337-351 | a null or blank date-time string gives null |
| AIScheduleService.TomorrowAtTen | wpclife-backend/src/main/java/com/wpclife/service/AIScheduleService.java:278 | the default start is on the next day, at hour 10 and minute 0, with the seconds of now kept |
| AIScheduleService.BuildRecord | wpclife-backend/src/main/java/com/wpclife/service/AIScheduleService.java:124-145 | a built document is of the kind the lower-cased type names |
| AIScheduleService.ScheduleOutcome | wpclife-backend/src/main/java/com/wpclife/service/AIScheduleService.java:68-180 | the message is the success message exactly when items were echoed; every other outcome is a failure with no items and zero counters; a missing or blank key gives the key message and saves nothing |
| AIScheduleService.CountKindTotal | wpclife-backend/src/main/java/com/wpclife/service/AIScheduleService.java:124-145 | the four per-kind counts of the saved documents add up to the number saved |
| AIScheduleService.RecordConsistent | wpclife-backend/src/main/java/com/wpclife/service/AIScheduleService.java:126-151 | recording a saved document appends it, and bumps its kind's counter and the echo list together |
| AIScheduleService.StepConsistent | wpclife-backend/src/main/java/com/wpclife/service/AIScheduleService.java:100-155 | every iteration, one that an escaping exception ends included, keeps counters, echoes and saved documents in step and saves at most one document |
| AIScheduleService.RunConsistent | wpclife-backend/src/main/java/com/wpclife/service/AIScheduleService.java:100-155 | after any prefix of the loop the counters, echoes and saved documents agree |
| AIScheduleService.CountersSumToItems | wpclife-backend/src/main/java/com/wpclife/service/AIScheduleService.java:94-171 | the four counters of any response add up to the number of echoed items, and on success one document was saved per echoed item |
| AIScheduleService.AbortPersists | wpclife-backend/src/main/java/com/wpclife/service/AIScheduleService.java:100-179 | once a cast outside the per-item try has thrown, the entries after it change nothing |
| AIScheduleService.SavedOnlyGrows | wpclife-backend/src/main/java/com/wpclife/service/AIScheduleService.java:100-155 | processing more entries only appends to the documents saved so far |
| AIScheduleService.StepReachesDispatch | wpclife-backend/src/main/java/com/wpclife/service/AIScheduleService.java:100-123 | an item with a non-blank string type and title reaches the switch, echoed with its type, title, description and dateTime |
| AIScheduleService.PassedOverStep | wpclife-backend/src/main/java/com/wpclife/service/AIScheduleService.java:100-154 | an entry skipped for a missing type or title, of unknown type, or whose build or save failed leaves the loop state as it was |
| AIScheduleService.PassedOverItemIsAsIfAbsent | wpclife-backend/src/main/java/com/wpclife/service/AIScheduleService.java:100-155 | inserting such an entry anywhere in the list changes nothing about the run |
| AIScheduleService.OutcomePrecedence | wpclife-backend/src/main/java/com/wpclife/service/AIScheduleService.java:68-92 | the early exits in order: missing key, failed call (the catch-all), blank reply, nothing parsed, a null list; each saves nothing |
| AIScheduleService.LoopOutcome | wpclife-backend/src/main/java/com/wpclife/service/AIScheduleService.java:157-179 | after the loop: an escaped exception gives the catch-all message, no echoed item gives "couldn't save", and otherwise the success response carries the loop's items and counters; the saved documents are the loop's |
| AIScheduleService.MalformedReplyFindsNothing | wpclife-backend/src/main/java/com/wpclife/service/AIScheduleService.java:232-253 | a reply the JSON decoder rejects ends in "couldn't identify" with nothing saved |
| AIScheduleService.DishesItemReaches | wpclife-backend/src/main/java/com/wpclife/service/AIScheduleService.java:100-121 | a chore item with only a type and a title reaches the switch with null description and dateTime |
| AIScheduleService.DishesChoreBuilt | wpclife-backend/src/main/java/com/wpclife/service/AIScheduleService.java:256-271 | that item builds a chore due one day from now, worth 10 points, not completed, in the user's household |
| AIScheduleService.PlainChoreSaved | wpclife-backend/src/main/java/com/wpclife/service/AIScheduleService.java:124-130 | processing that item alone saves exactly that chore |
| AIScheduleService.CastFailureEscapes | wpclife-backend/src/main/java/com/wpclife/service/AIScheduleService.java:101-114 | a second item whose type is a number ends the loop through the catch-all, after the first item's chore was saved |
| AIScheduleService.ChoreDefaults | wpclife-backend/src/main/java/com/wpclife/service/AIScheduleService.java:256-271 | a built chore is not completed; absent or null points give 10 and numbers are truncated to int; an absent, blank or unparsable dateTime gives now plus one day, otherwise the parsed time |
| AIScheduleService.ChorePointsMustBeNumeric | wpclife-backend/src/main/java/com/wpclife/service/AIScheduleService.java:258 | points that are neither null nor a number make the chore builder throw |
| AIScheduleService.ChoreDueDateExample | wpclife-backend/src/main/java/com/wpclife/service/AIScheduleService.java:257-263 | a chore with dateTime "2025-03-10T09:00:00" is due at exactly the parsed instant |
| AIScheduleService.EventDefaults | wpclife-backend/src/main/java/com/wpclife/service/AIScheduleService.java:273-296 | with neither time parsed, the event starts tomorrow at 10:00 and ends one hour later, typed OTHER with no participants |
| AIScheduleService.EventEndNotClamped | wpclife-backend/src/main/java/com/wpclife/service/AIScheduleService.java:274-287 | a parsed end before the parsed start is kept as it is |
| AIScheduleService.MedicationRules | wpclife-backend/src/main/java/com/wpclife/service/AIScheduleService.java:298-314 | the stock is 30; each time-of-day flag is set exactly when the times list contains its name; no times means no flags; no dosage means "As prescribed" |
| AIScheduleService.MedicationNullTimesThrows | wpclife-backend/src/main/java/com/wpclife/service/AIScheduleService.java:300-306 | an explicit null times value makes the builder throw |
| AIScheduleService.GroceryRules | wpclife-backend/src/main/java/com/wpclife/service/AIScheduleService.java:316-335 | the item is needed seven days from today and unchecked; the category is the upper-cased name's constant, or OTHER when there is none or no category was given |
| AIScheduleService.GroceryCategoryLowerCase | wpclife-backend/src/main/java/com/wpclife/service/AIScheduleService.java:320 | "dairy" is the DAIRY category |
| AIScheduleService.GroceryCategoryUnknown | wpclife-backend/src/main/java/com/wpclife/service/AIScheduleService.java:319-323 | "frozen" falls back to OTHER |
| AIScheduleService.CountRecord | wpclife-backend/src/main/java/com/wpclife/service/AIScheduleService.java:128-151 | bumping the saved kind's counter, echoing the item (a chore with its points) and keeping the document gives the state that `Recorded` describes |
| AIScheduleService.Repository.Save | wpclife-backend/src/main/java/com/wpclife/service/AIScheduleService.java:127 | a save appends the document unless the store rejects it, and reports which |
| AIScheduleService.ScheduleService.HandleEntry | wpclife-backend/src/main/java/com/wpclife/service/AIScheduleService.java:100-155 | one loop iteration saves what `Step` says it saves and reports the outcome that `Step` gives for every loop state |
| AIScheduleService.ScheduleService.ProcessItems | wpclife-backend/src/main/java/com/wpclife/service/AIScheduleService.java:94-171 | the loop appends exactly the run's saved documents to the store and answers as the run says |
| AIScheduleService.ScheduleService.ProcessScheduleText | wpclife-backend/src/main/java/com/wpclife/service/AIScheduleService.java:68-180 | the response and the appended documents are those of `ScheduleOutcome` |
| AiScheduleRoute.ParseAIResponse | server/routes.ts:274-294 | an empty reply, or one whose cleaned text `JSON.parse` rejects, gives `[]`; otherwise the parsed value of the cleaned text, whatever its shape |
| AiScheduleRoute.StripFencesBare | server/routes.ts:278-289 | JavaScript white space around a bare array is trimmed away |
| AiScheduleRoute.StripFencesFenced | server/routes.ts:278-289 | a fenced array with white space inside the fences cleans to the bare array |
| AiScheduleRoute.FencedParsesAsBare | server/routes.ts:274-294 | a fenced array reply parses exactly as the bare array reply |
| AiScheduleRoute.SameCleaning | server/routes.ts:274-294 | two non-empty replies that clean to the same text parse alike |
| AiScheduleRoute.ListingOf | server/routes.ts:1540-1560 | `length === 0` and `for ... of` on the parsed value: an array iterates its elements, and the value counts as empty exactly for `[]`, `""` or an object whose length is 0 |
| AiScheduleRoute.TargetFamily | server/routes.ts:1557-1558 | a truthy request familyId is used, otherwise the first family's id |
| AiScheduleRoute.FindAssignee | server/routes.ts:1568-1577 | a user is found exactly when some user's name matches; the one found is the first match in list order |
| AiScheduleRoute.BuildDoc | server/routes.ts:1563-1636 | every document built is for the target family |
| AiScheduleRoute.StepReachesDispatch | server/routes.ts:1561-1563 | an item with a non-empty string type and a truthy title is handled by the case for its lower-cased type |
| AiScheduleRoute.ScheduleOutcome | server/routes.ts:1498-1664 | missing or blank text gives the "provide some text" reply with nothing created; any reply past the first two guards needs a key |
| AiScheduleRoute.RecordedConsistent | server/routes.ts:1588-1635 | counting a handled item keeps counters, echoed items and created documents in step |
| AiScheduleRoute.StepConsistent | server/routes.ts:1560-1638 | every iteration, including one whose create throws, keeps that agreement |
| AiScheduleRoute.RunConsistent | server/routes.ts:1560-1638 | after any prefix of the loop the counters add up to the echoed items and every created document is for the target family |
| AiScheduleRoute.CountersSumToItems | server/routes.ts:1640-1651 | the four counters add up to the number of echoed items; the message is "Successfully created N item(s)" for the total N exactly when some item was echoed; with none the reply is an item-less failure |
| AiScheduleRoute.SummaryCounts | server/routes.ts:1640-1651 | the summary of a consistent loop state: counters add to the items; "created N item(s)" with items, "couldn't identify any valid items" without, and the success message exactly when there are items |
| AiScheduleRoute.SummaryMessage | server/routes.ts:1640-1651 | for a consistent loop state, the summary message is "Successfully created N item(s)" exactly when the loop echoed some item |
| AiScheduleRoute.SuccessOnlyWithItems | server/routes.ts:1498-1664 | a response without items never carries the success message, whichever guard or failure produced it |
| AiScheduleRoute.OutcomeOfElements | server/routes.ts:1551-1663 | for a non-empty array reply the route answers with the loop's summary, or the catch-all message when a create threw, and creates what the loop created |
| AiScheduleRoute.CreatedForTargetFamily | server/routes.ts:1557-1636 | with no target family nothing is created; every created document is for the target family; outside the catch-all no more documents are created than items echoed |
| AiScheduleRoute.GuardOrder | server/routes.ts:1501-1536 | with text present, a missing key gives the key message and a missing or empty reply the "could not get a response" message, each creating nothing |
| AiScheduleRoute.ListingOutcomes | server/routes.ts:1538-1549 | an empty parsed value gives "couldn't identify" and a value `for ... of` cannot iterate gives the catch-all message, each creating nothing |
| AiScheduleRoute.MalformedReplyFindsNothing | server/routes.ts:274-294 | a reply `JSON.parse` rejects ends in "couldn't identify" with nothing created |
| AiScheduleRoute.StringReplyHasNoValidItems | server/routes.ts:1538-1645 | a reply that parses to a non-empty string iterates its characters, none of which is an item: "couldn't identify any valid items" |
| AiScheduleRoute.AllStringsPassedOver | server/routes.ts:1560-1561 | a list of strings passes every entry over and leaves the counters at zero |
| AiScheduleRoute.PassedOverItemIsAsIfAbsent | server/routes.ts:1560-1637 | an entry without type or title, or of an unknown type, changes nothing wherever it sits in the list |
| AiScheduleRoute.AbortPersists | server/routes.ts:1560-1663 | once a create or a string method has thrown, the entries after it change nothing |
| AiScheduleRoute.CountedWithoutFamily | server/routes.ts:1564-1636 | with no target family a known item is still counted and echoed, but nothing is created |
| AiScheduleRoute.SweepChoreBuilt | server/routes.ts:1579-1586 | a chore item "Sweep" without points or date becomes a PENDING chore worth 5, due today, unassigned |
| AiScheduleRoute.SweepChoreCreated | server/routes.ts:1564-1590 | that item, typed "Chore", is created and counted as a chore |
| AiScheduleRoute.NumericDueDateThrows | server/routes.ts:1582 | a numeric dateTime has no `split`, so the chore case throws to the catch-all |
| AiScheduleRoute.ChoreRules | server/routes.ts:1579-1586 | a chore is PENDING, for the family, with the item's title; missing or zero points give 5, other numbers are kept; no dateTime means due today; no name means unassigned |
| AiScheduleRoute.ChoreDueDateOfDateTime | server/routes.ts:1582 | a "date T time" string is due on its date part |
| AiScheduleRoute.ChoreDueDateOfDate | server/routes.ts:1582 | a plain date string is due on that date |
| AiScheduleRoute.AssigneeIsFirstMatch | server/routes.ts:1566-1578 | with a name given, the chore's assignee is set exactly when some family member's trimmed, lower-cased name contains it or is contained in it |
| AiScheduleRoute.BlankNameMatchesFirstNamed | server/routes.ts:1569-1574 | a name that trims to nothing matches the first member who has a name |
| AiScheduleRoute.ReminderRules | server/routes.ts:1591-1607 | a reminder is Custom on a ONCE schedule with the item's title and description; no dateTime means it starts now, otherwise it starts at the local time converted from the request timezone or UTC; no endDateTime means no end |
| AiScheduleRoute.GroceryRules | server/routes.ts:1608-1620 | a grocery item is NEEDED with the item's title; no category gives "Other" and no store gives null |
| AiScheduleRoute.MedicineRules | server/routes.ts:1621-1636 | a medicine is DAILY, active, stocked 30; no times give ["08:00"]; no start date gives today; no dosage or end date gives null |
| AiScheduleRoute.Storage.Create | server/routes.ts:1579 | a create appends the document unless storage rejects it, and reports which |
| AiScheduleRoute.CountItem | server/routes.ts:1588-1635 | bumping a kind's counter and pushing the item gives the tally that `Recorded` describes |
| AiScheduleRoute.ScheduleRoute.CreateDoc | server/routes.ts:1564-1636 | a document storage accepts is appended and counted; a rejected one aborts the loop and creates nothing |
| AiScheduleRoute.ScheduleRoute.HandleItem | server/routes.ts:1560-1637 | one loop iteration creates what `Step` says it creates and reports the outcome that `Step` gives for every loop state |
| AiScheduleRoute.ScheduleRoute.ProcessItems | server/routes.ts:1551-1663 | the loop appends exactly the run's created documents to storage and answers with the run's summary, or the catch-all message |
| AiScheduleRoute.ScheduleRoute.Schedule | server/routes.ts:1498-1664 | the response and the appended documents are those of `ScheduleOutcome` |
| ChoreCompletion.Award | server/routes.ts:1276-1283 | points are credited exactly when the body sets status COMPLETED on a chore that was not completed, it is assigned and the user exists; the new total is the user's points (or 0) plus the chore's points (or 0) |
| ChoreCompletion.CompletedTwiceAwardsOnce | server/routes.ts:1277 | updating a chore that is already completed credits nothing, so completing twice credits once |
| ChoreCompletion.OtherStatusAwardsNothing | server/routes.ts:1277 | a body status other than COMPLETED credits nothing |
| ChoreCompletion.AwardNeverLowers | server/routes.ts:1280-1281 | with non-negative chore points the user's total never goes down |
| LoginLimiter.Decide | server/routes.ts:14-33 | a key is refused exactly when it has a record inside the lockout window with at least 10 attempts; only a refusal carries retryAfter, the remaining window rounded up to whole seconds |
| LoginLimiter.AfterCheck | server/routes.ts:22-25 | the check deletes the key's record exactly when its window has passed, and changes nothing else |
| LoginLimiter.AfterFailure | server/routes.ts:35-44 | a failure sets the key's last attempt to now and its count to one more than before (1 for a new key); other keys are untouched |
| LoginLimiter.RetryAfterBounds | server/routes.ts:27-29 | while refused, retryAfter lies between 0 and 300 seconds |
| LoginLimiter.RetryAfterZeroAtEdge | server/routes.ts:22-29 | exactly five minutes after the last attempt the key is still refused, with retryAfter 0 (the window test is strict) |
| LoginLimiter.UnknownKeyAllowed | server/routes.ts:18-20 | a key without a record is allowed and the map is unchanged |
| LoginLimiter.FailuresCount | server/routes.ts:35-44 | n failures at the same time on a new key leave a record of n attempts at that time |
| LoginLimiter.TenFailuresLockOut | server/routes.ts:11-30 | ten failures lock a key out, nine do not |
| LoginLimiter.LockoutExpires | server/routes.ts:22-25 | after the window the key is allowed and its record is gone, so a second check allows it too |
| LoginLimiter.FailureRestartsWindow | server/routes.ts:27-43 | a failure while locked out restarts the full 300-second wait |
| LoginLimiter.RateLimiter.CheckRateLimit | server/routes.ts:14-33 | the verdict is `Decide` on the old map and the map becomes `AfterCheck` of it |
| LoginLimiter.RateLimiter.RecordFailedAttempt | server/routes.ts:35-44 | the map becomes `AfterFailure` of the old map |
| LoginLimiter.RateLimiter.ResetRateLimit | server/routes.ts:46-48 | the key's record is removed and nothing else changes |
| Registration.Validate | server/routes.ts:314-316 | a missing family name, guardian name, guardian email or password gives "All fields are required" before any other check |
| Registration.CheckMembersSound | server/routes.ts:328-350 | the member loop finds no error exactly when the lower-cased member emails, with the ones seen before, are distinct, none is registered and no guardian member has a short password |
| Registration.FirstMemberFails | server/routes.ts:330-349 | a first member whose email was seen, is registered, or who is a guardian with a short password stops the loop |
| Registration.ValidateAcceptsExactly | server/routes.ts:314-350 | registration passes validation exactly when the four fields are given, the password has at least 8 characters, the guardian email is not registered, and the members are acceptable with the guardian email already seen |
| Registration.GuardianEmailRepeated | server/routes.ts:329-336 | a member whose email equals the guardian's up to case is refused |
| Registration.ValidateRegistration | server/routes.ts:314-350 | the validation loop returns the error `Validate` gives |
| KidLogin.LastChar | client/src/pages/KidLogin.tsx:28 | `value.slice(-1)` is empty exactly for empty input, and otherwise the last character |
| KidLogin.PinChanged | client/src/pages/KidLogin.tsx:24-34 | non-digit input leaves the slots as they are; otherwise only the edited slot changes, to the last character typed |
| KidLogin.PinChangedKeepsSlots | client/src/pages/KidLogin.tsx:24-34 | each slot stays empty or one digit |
| KidLogin.JoinedSlots | client/src/pages/KidLogin.tsx:48 | the joined PIN is all digits, no longer than the slot count, and as long exactly when every slot is filled |
| KidLogin.SubmitCheck | client/src/pages/KidLogin.tsx:47-79 | the checks in order: blank family name, blank name, a PIN not of 4 characters; otherwise the trimmed names and the PIN are sent |
| KidLogin.ButtonMatchesCheck | client/src/pages/KidLogin.tsx:169 | the sign-in button is enabled exactly when the submit checks pass, and then the PIN is four digits |
| KidLogin.LoginPage.PinChange | client/src/pages/KidLogin.tsx:24-34 | the page's slots become `PinChanged` of the old ones; the names, toast and sign-in state are unchanged |
| KidLogin.LoginPage.Clear | client/src/pages/KidLogin.tsx:42-45 | the four slots are emptied and nothing else changes |
| KidLogin.LoginPage.Submit | client/src/pages/KidLogin.tsx:47-97 | a failed check toasts its reason; a successful login toasts welcome and signs in; a refused login toasts the failure and empties the PIN |
| Notifications.CodeUnits | client/src/lib/notifications.ts:50-51 | `charCodeAt` sees each character as one or two UTF-16 code units, each below 0x10000 |
| Notifications.HashFold | client/src/lib/notifications.ts:49-54 | the running hash is always a signed 32-bit value |
| Notifications.HashStepIsMultiply | client/src/lib/notifications.ts:52-53 | `((h << 5) - h) + c` followed by `hash & hash` is 31·h + c wrapped to 32 bits |
| Notifications.HashFoldSnoc | client/src/lib/notifications.ts:49-54 | the hash starts at 0 and each code unit folds in as int32(31·h + c) |
| Notifications.Hash | client/src/lib/notifications.ts:55 | `Math.abs(hash) % 90000` lies in [0, 90000) |
| Notifications.HashStringToNumber | client/src/lib/notifications.ts:48-56 | the loop computes `Hash` of the string, a value in [0, 90000) |
| Notifications.MedicationId | client/src/lib/notifications.ts:181-189 | a medication notification id is at least 100000 |
| Notifications.ChoreId | client/src/lib/notifications.ts:232 | a chore notification id lies in [200000, 290000) |
| Notifications.ReminderId | client/src/lib/notifications.ts:276 | a reminder notification id lies in [300000, 390000) |
| Notifications.MedicationIdInRange | client/src/lib/notifications.ts:44-46 | with fewer than 9001 times per medication, medication ids stay below the chore range |
| Notifications.IdKindsDisjoint | client/src/lib/notifications.ts:44-46 | medication, chore and reminder ids never collide |
| Notifications.CancelledByPrefix | client/src/lib/notifications.ts:119-135 | exactly the pending ids in [prefix, prefix + 100000) are cancelled |
| Notifications.CancelSparesOtherKinds | client/src/lib/notifications.ts:119-135 | cancelling one kind's range never cancels another kind's notification |
| Notifications.ClockTime | client/src/lib/notifications.ts:139 | a time of day is read only from a string with at least one ':' |
| Notifications.ClockTimeOfDigits | client/src/lib/notifications.ts:139 | "HH:MM" gives the hours and minutes its digits spell |
| Notifications.NotificationTime | client/src/lib/notifications.ts:137-149 | null exactly when the fire time is a valid date not after now; an Invalid Date exactly when the time or the date does not parse (it compares false with now, so it is kept); a kept valid time is after now |
| Notifications.MissingMinutesIsInvalid | client/src/lib/notifications.ts:139-141 | a time without ':' gives NaN minutes and so an Invalid Date, which is scheduled |
| Notifications.DoseNotice | client/src/lib/notifications.ts:183-198 | one dose yields a notification exactly when its time is kept, with id base + 1000 for tomorrow, that time, and the medication's id |
| Notifications.TimesNoticesBound | client/src/lib/notifications.ts:179-200 | at most two notifications per scheduled time |
| Notifications.TimesNoticesShape | client/src/lib/notifications.ts:179-200 | each is a medication notification in the medication id range, for that medication, and after now when it is a valid date |
| Notifications.MedNoticesBound | client/src/lib/notifications.ts:175-177 | an inactive medication, or one without a schedule or times, yields none; otherwise at most two per time |
| Notifications.MedicationNoticesShape | client/src/lib/notifications.ts:174-201 | every medication notification built is in the medication range and after now when valid |
| Notifications.ScheduleMedications | client/src/lib/notifications.ts:162-212 | off the native platform or with medications disabled the count is 0; otherwise the nested loops build exactly `MedicationNotices`, and the count is their number whether or not scheduling throws |
| Notifications.BuildTimes | client/src/lib/notifications.ts:179-200 | the loop over a medication's times builds exactly `TimesNotices` |
| Notifications.BuildDoses | client/src/lib/notifications.ts:183-199 | the loop over today and tomorrow builds exactly `TimeNotices` for that time |
| Notifications.ChoreNotice | client/src/lib/notifications.ts:225-243 | a chore yields a notification exactly when it is neither COMPLETED nor DONE, has a due date, and its fire time (at dueTime or 08:00) is kept; the id is its hash in the chore range |
| Notifications.ChoreNoticesShape | client/src/lib/notifications.ts:224-244 | at most one notification per chore, each in the chore range and after now when valid |
| Notifications.ScheduleChores | client/src/lib/notifications.ts:214-255 | off the native platform or with chores disabled the count is 0; otherwise the loop builds exactly `ChoreNotices` and counts them |
| Notifications.ReminderNotice | client/src/lib/notifications.ts:267-287 | a reminder yields a notification exactly when it is not inactive, has a start time, and its start minus the lead time is not a valid instant at or before now |
| Notifications.ReminderNoticesShape | client/src/lib/notifications.ts:267-288 | at most one notification per reminder, each in the reminder range and after now when valid |
| Notifications.ScheduleReminders | client/src/lib/notifications.ts:257-299 | off the native platform or with reminders disabled the count is 0; otherwise the loop builds exactly `ReminderNotices` and counts them |
| GroceryItems.NeededGotDisjoint | client/src/pages/Groceries.tsx:129-131 | a needed item (NEEDED or PENDING) is never in the got list (GOT or CHECKED) and is always active (not ARCHIVED) |
| GroceryItems.NeededGotWithinActive | client/src/pages/Groceries.tsx:129-131 | the needed and got lists together are no longer than the active list |
| GroceryItems.StoreKey | client/src/pages/Groceries.tsx:136 | the grouping key `item.store \|\| 'No Store'` is never empty |
| GroceryItems.FirstMatch | client/src/pages/Groceries.tsx:88-100 | the guessed category is "Other" or the category of a keyword group that matches |
| GroceryItems.FirstMatchWins | client/src/pages/Groceries.tsx:88-100 | the first matching group, in the order of the if-chain, decides the category |
| GroceryItems.NoMatchIsOther | client/src/pages/Groceries.tsx:99 | a name matching no group is "Other" |
| GroceryItems.FirstMatchNoLater | client/src/pages/Groceries.tsx:88-100 | a matching group means the category comes from it or an earlier group |
| GroceryItems.FirstMatchOther | client/src/pages/Groceries.tsx:88-100 | with no group named Other, the guess is "Other" exactly when no keyword occurs in the name |
| GroceryItems.Patched | client/src/pages/Groceries.tsx:102-110 | an update sets the status, sets the purchase count only when one is sent, and keeps id, name and store |
| GroceryItems.UpdatesKeepItems | client/src/pages/Groceries.tsx:102-110 | serving update requests keeps every stored item and its id, in order |
| GroceryItems.CountedStores | client/src/pages/Groceries.tsx:163-167 | the stores counted are those of items whose store is set and not "Other", one per item |
| GroceryItems.TallyCounts | client/src/pages/Groceries.tsx:162-167 | the record counts every store exactly as often as it occurs among the counted items |
| GroceryItems.TallyKeys | client/src/pages/Groceries.tsx:162-167 | the record's keys are the counted stores in order of first appearance, each once |
| GroceryItems.StoreTallyDistinct | client/src/pages/Groceries.tsx:168 | `Object.entries` lists each store once |
| GroceryItems.MoreFrequentIsStrictWeak | client/src/pages/Groceries.tsx:169 | the comparator `b[1] - a[1]` is a strict weak order |
| GroceryItems.TopStores | client/src/pages/Groceries.tsx:170 | at most 15 stores are offered |
| GroceryItems.TopStoresAreCounted | client/src/pages/Groceries.tsx:168-171 | every offered store is one of the counted stores |
| GroceryItems.TopStoresAreMostFrequent | client/src/pages/Groceries.tsx:168-171 | no counted store left off the list occurs more often than an offered one |
| GroceryItems.StoreTallySnoc | client/src/pages/Groceries.tsx:163-166 | one more item bumps its store's count when it is counted, and changes nothing otherwise |
| GroceryItems.CountInto | client/src/pages/Groceries.tsx:162-167 | the `forEach` loop builds a map and an insertion order that mirror the record |
| GroceryItems.CountStores | client/src/pages/Groceries.tsx:162-168 | the entries listed in insertion order are exactly the record |
| GroceryItems.FrequentStoresOf | client/src/pages/Groceries.tsx:158-172 | with no stores saved, frequentStores is exactly `TopStores` of the items |
| QuickInput.CaptureStart | client/src/pages/Groceries.tsx:46 | after an '@' the capture of `/@\s*(.+)$/` starts where the white space the greedy `\s*` can give up ends, and runs to the end without a line terminator |
| QuickInput.CaptureStartComplete | client/src/pages/Groceries.tsx:46 | whenever such a capture exists after an '@', it is found |
| QuickInput.FirstAt | client/src/pages/Groceries.tsx:46 | the match is at the first '@' from which the pattern can match; no earlier '@' can |
| QuickInput.NoAtNoMatch | client/src/pages/Groceries.tsx:46-50 | without an '@' there is no store |
| QuickInput.TryUnits | client/src/pages/Groceries.tsx:53 | a unit alternative, tried in the pattern's order, ends at a word boundary |
| QuickInput.TryUnitsComplete | client/src/pages/Groceries.tsx:53 | when some unit alternative can end at a boundary, one is found |
| QuickInput.TailAt | client/src/pages/Groceries.tsx:53 | after the number, white space and an optional unit that ends at a boundary |
| QuickInput.TailAtComplete | client/src/pages/Groceries.tsx:53 | whenever such a tail exists, it is found |
| QuickInput.ShapeTakesAllDigits | client/src/pages/Groceries.tsx:53 | a quantity match takes the whole digit run, and the whole fraction run after a '.' |
| QuickInput.TryNumberFindsInteger | client/src/pages/Groceries.tsx:53 | a digit run at a boundary with a valid tail is a match |
| QuickInput.TryNumberFindsFraction | client/src/pages/Groceries.tsx:53 | so is a digit run, '.', digit run with a valid tail |
| QuickInput.QtyAt | client/src/pages/Groceries.tsx:53 | a match found at a position has the quantity pattern's shape |
| QuickInput.QtyAtComplete | client/src/pages/Groceries.tsx:53 | whenever the pattern can match at a position, a match is found there |
| QuickInput.FirstQty | client/src/pages/Groceries.tsx:53 | the search returns a match of the pattern's shape, at or after where it started |
| QuickInput.FirstQtySkips | client/src/pages/Groceries.tsx:53 | no match is possible at any position the search passed over |
| QuickInput.QtyIsLeftmost | client/src/pages/Groceries.tsx:53 | the quantity found is the leftmost match |
| QuickInput.NoQtyAnywhere | client/src/pages/Groceries.tsx:53-57 | when none is found, the pattern matches nowhere |
| QuickInput.RemoveFirst | client/src/pages/Groceries.tsx:56 | `replace` with a string removes exactly one occurrence when there is one, and otherwise changes nothing |
| QuickInput.CollapseSpaces | client/src/pages/Groceries.tsx:59 | `replace(/\s+/g, ' ')` is never longer and is empty only for empty text |
| QuickInput.CollapseLeavesSingleSpaces | client/src/pages/Groceries.tsx:59 | afterwards every white space is one ' ' and never followed by another |
| QuickInput.CollapseKeepsText | client/src/pages/Groceries.tsx:59 | the characters that are not white space are kept, in order |
| QuickInput.ParseQuickInput | client/src/pages/Groceries.tsx:35-61 | null exactly for blank input; otherwise the store is what the '@' split gives of the trimmed input, the quantity what the quantity split gives of the rest, and the name the rest, collapsed and trimmed |
| QuickInput.StoreFound | client/src/pages/Groceries.tsx:46-50 | a store is found exactly when the '@' pattern matches, and it holds no line terminator |
| QuickInput.StoreOfTrimmed | client/src/pages/Groceries.tsx:46-48 | on trimmed text, a non-empty store exactly when the '@' pattern matches |
| QuickInput.QuantityStartsWithDigit | client/src/pages/Groceries.tsx:53-56 | a quantity is found exactly when the quantity pattern matches the rest, and then it starts with a digit |
| QuickInput.CollapsedTrimIsSingleSpaced | client/src/pages/Groceries.tsx:59 | collapsed and trimmed text has single inner spaces and no white space at either end |
| QuickInput.NameIsClean | client/src/pages/Groceries.tsx:59 | the parsed name is single-spaced and trimmed |
| QuickInput.ParseQuickInputExample | client/src/pages/Groceries.tsx:35-61 | "Milk 2L @Publix" parses to the name "Milk", the quantity "2L" and the store "Publix" |
| GroceryItems.StoreNames | client/src/pages/Groceries.tsx:225-231 | the Set-filling loop gives the store keys of the needed items, each once, in order of first appearance |
| GroceryItems.StoreNameHasItems | client/src/pages/Groceries.tsx:219-231 | a store name is offered exactly when some needed item is listed under it |
| GroceryPage.GroupCategoriesListed | client/src/pages/Groceries.tsx:13-99 | every keyword group's category is one of the page's categories, and none is "Other" |
| GroceryPage.GuessCategoryListed | client/src/pages/Groceries.tsx:88-100 | the guess is always one of the page's categories |
| GroceryPage.GuessCategoryOther | client/src/pages/Groceries.tsx:88-100 | the guess is "Other" exactly when no keyword of any group occurs in the lower-cased name |
| GroceryPage.IceCreamNeverFrozen | client/src/pages/Groceries.tsx:92-98 | a name mentioning "ice cream" is never Frozen, because the Dairy word "cream" is tried first |
| GroceryPage.IceCreamIsDairy | client/src/pages/Groceries.tsx:90-98 | without a fruit or vegetable word, "ice cream" is Dairy |
| GroceryPage.GroupedSnoc | client/src/pages/Groceries.tsx:135-139 | one more needed item joins the group of its store and no other |
| GroceryPage.ItemsByStore | client/src/pages/Groceries.tsx:133-141 | the grouping loop lists under each store key exactly the needed items of that store, in order, and has no other keys |
| GroceryPage.GroupsPartitionNeeded | client/src/pages/Groceries.tsx:133-141 | every needed item is listed under its own store and under no other |
| GroceryPage.StoreNamesAreGroups | client/src/pages/Groceries.tsx:225-231 | the stores offered for clearing are exactly the groups of the store view |
| GroceryPage.MissingEssentials | client/src/pages/Groceries.tsx:150-156 | the essentials from the database, or the built-in ten when there are none, are kept exactly when no needed name contains them, ignoring case |
| GroceryPage.HeavierIsStrictWeak | client/src/pages/Groceries.tsx:145 | the comparator on `purchaseCount \|\| 1` is a strict weak order |
| GroceryPage.RankedBuyAgain | client/src/pages/Groceries.tsx:144-146 | at most 15 buy-again rows are offered |
| GroceryPage.RankedBuyAgainSorted | client/src/pages/Groceries.tsx:144-146 | they come in non-increasing purchase count, a missing count weighing 1 |
| GroceryPage.RankedBuyAgainMaximal | client/src/pages/Groceries.tsx:144-146 | no row left off outweighs one kept |
| GroceryPage.SuggestionOf | client/src/pages/Groceries.tsx:147 | a suggestion keeps the name and has a store, "Other" when none was saved |
| GroceryPage.FrequentItems | client/src/pages/Groceries.tsx:143-148 | one suggestion per ranked row, in rank order |
| GroceryPage.FrequentStores | client/src/pages/Groceries.tsx:158-172 | the first 15 saved stores, or `TopStores` of the items when none are saved |
| GroceryPage.HandleQuickAdd | client/src/pages/Groceries.tsx:63-70 | nothing happens exactly when the input is blank or there is no family |
| GroceryPage.QuickAddCreates | client/src/pages/Groceries.tsx:63-86 | a created item is NEEDED, with a non-empty single-spaced name, a store ("Other" when none was typed), a listed category, and the parsed quantity only when there is one |
| GroceryPage.AddSuggestion | client/src/pages/Groceries.tsx:174-186 | with a family, a suggestion is created NEEDED at the given store with no quantity; without one nothing is sent |
| GroceryPage.FindById | client/src/pages/Groceries.tsx:103 | `find` returns an item with that id from the list, or nothing when no item has it |
| GroceryPage.SaveAndDelete | client/src/pages/Groceries.tsx:188-202 | an item ends with its delete request, preceded by a buy-again record exactly when it was bought and no buy-again row has its name |
| GroceryPage.DeletedIdsAppend | client/src/pages/Groceries.tsx:204-223 | the ids deleted by two request runs are those of the first then the second |
| GroceryPage.CreatedRecordsAppend | client/src/pages/Groceries.tsx:204-223 | so are the buy-again records created |
| GroceryPage.SaveAndDeleteEffects | client/src/pages/Groceries.tsx:188-202 | one item's requests delete exactly that item and create its record only when it earns one |
| GroceryPage.ClearDeletesEach | client/src/pages/Groceries.tsx:204-223 | a clear action deletes every listed item, in order, and creates a record for exactly the earning items |
| GroceryPage.ClearDuplicatesRecords | client/src/pages/Groceries.tsx:190-201 | two bought items with the same name each get a record, because the check reads the buy-again list as it was before the clear |
| GroceryPage.Page.MoveToGot | client/src/pages/Groceries.tsx:102-106 | sends one update: GOT with the item's purchase count (0 when not found) plus one |
| GroceryPage.Page.MoveToNeeded | client/src/pages/Groceries.tsx:108-110 | sends one update: NEEDED, with the count untouched |
| GroceryPage.Page.RemoveItem | client/src/pages/Groceries.tsx:112-127 | sends the item's buy-again record when it earns one, then its delete; an unknown id is still deleted |
| GroceryPage.Page.SaveAllAndDelete | client/src/pages/Groceries.tsx:204-223 | the requests of a clear action over a list are `ClearRequests` of that list |
| GroceryPage.Page.ClearAllItems | client/src/pages/Groceries.tsx:204-207 | clearing all works on the active items |
| GroceryPage.Page.ClearAllGotIt | client/src/pages/Groceries.tsx:209-212 | clearing "got it" works on the got items |
| GroceryPage.Page.ClearAllNeed | client/src/pages/Groceries.tsx:214-217 | clearing "need" works on the needed items |
| GroceryPage.Page.ClearByStore | client/src/pages/Groceries.tsx:219-223 | clearing a store works on the needed items of that store key |
| GroceryScreen.GuessCategoryRange | mobile-app/src/screens/GroceriesScreen.tsx:64-71 | the mobile guess is one of Fruits, Vegetables, Dairy, Meat or Other |
| GroceryScreen.GuessCategoryOther | mobile-app/src/screens/GroceriesScreen.tsx:64-71 | it is "Other" exactly when no keyword of the four groups occurs in the lower-cased name |
| GroceryScreen.HandleQuickAdd | mobile-app/src/screens/GroceriesScreen.tsx:73-91 | nothing is created exactly when the input is blank or parses to an empty name |
| GroceryScreen.QuickAddCreates | mobile-app/src/screens/GroceriesScreen.tsx:76-86 | a created item is NEEDED, with a non-empty single-spaced name, a store ("Other" when none was typed), and the parsed quantity only when there is one |
| GroceryScreen.AddSuggestion | mobile-app/src/screens/GroceriesScreen.tsx:93-104 | a suggestion is created NEEDED with its name, the given store, the guessed category and no quantity |
| GroceryScreen.MissingEssentials | mobile-app/src/screens/GroceriesScreen.tsx:156-159 | an essential is offered exactly when no needed name contains it, ignoring case |
| GroceryScreen.StoreOrOther | mobile-app/src/screens/GroceriesScreen.tsx:147 | the remembered store is never empty ("Other" stands in) |
| GroceryScreen.OfferGet | mobile-app/src/screens/GroceriesScreen.tsx:144-149 | after one item the record holds that item's count and store under its name when it improves on the entry, and is unchanged otherwise |
| GroceryScreen.FirstBestOtherName | mobile-app/src/screens/GroceriesScreen.tsx:144-149 | an item of another name changes neither whether a name was bought nor its first best item |
| GroceryScreen.FirstBestNotImproved | mobile-app/src/screens/GroceriesScreen.tsx:146 | an item of the name that does not beat the best count leaves the first best item in place |
| GroceryScreen.FirstBestImproved | mobile-app/src/screens/GroceriesScreen.tsx:146 | an item that beats every earlier count of its name becomes the first best item |
| GroceryScreen.BoughtBefore | mobile-app/src/screens/GroceriesScreen.tsx:145-146 | an item with no purchases does not make its name bought |
| GroceryScreen.BestRecordDefined | mobile-app/src/screens/GroceriesScreen.tsx:143-149 | the record has an entry for a name exactly when some item of that name was bought |
| GroceryScreen.BestRecordIsBest | mobile-app/src/screens/GroceriesScreen.tsx:143-149 | that entry holds the count and store of the first item with the highest count for the name |
| GroceryScreen.BestRecordKeys | mobile-app/src/screens/GroceriesScreen.tsx:143-150 | the record's keys are the bought names, each once, in order of first purchase |
| GroceryScreen.BusierIsStrictWeak | mobile-app/src/screens/GroceriesScreen.tsx:151 | the comparator on counts is a strict weak order |
| GroceryScreen.RankedItems | mobile-app/src/screens/GroceriesScreen.tsx:150-152 | at most 15 entries are ranked |
| GroceryScreen.FrequentItems | mobile-app/src/screens/GroceriesScreen.tsx:150-153 | at most 15 suggestions are offered |
| GroceryScreen.FrequentItemIsBest | mobile-app/src/screens/GroceriesScreen.tsx:142-154 | each suggestion carries the store of the first best item of its name |
| GroceryScreen.TopEntryOutranks | mobile-app/src/screens/GroceriesScreen.tsx:150-152 | an entry left out of the ranking has a count no greater than any ranked one |
| GroceryScreen.FrequentItemsAreMostBought | mobile-app/src/screens/GroceriesScreen.tsx:142-154 | no item of a bought name that is not suggested has more purchases than a suggested name's best item |
| GroceryScreen.MirrorsOffer | mobile-app/src/screens/GroceriesScreen.tsx:146-147 | the dictionary update agrees with the record's update, a new name going to the end of the key order |
| GroceryScreen.BestRecordSnoc | mobile-app/src/screens/GroceriesScreen.tsx:144-149 | the record of a longer prefix is the previous record offered the next item |
| GroceryScreen.BestInto | mobile-app/src/screens/GroceriesScreen.tsx:143-149 | the forEach loop builds a dictionary and key order matching the record of all items |
| GroceryScreen.FrequentItemsOf | mobile-app/src/screens/GroceriesScreen.tsx:142-154 | the memo computes exactly the frequent items |
| GroceryScreen.BuyAgainItems | mobile-app/src/screens/GroceriesScreen.tsx:174 | buy-again keeps exactly the frequent items whose name, ignoring case, is not a needed name |
| GroceryScreen.ArchiveRequests | mobile-app/src/screens/GroceriesScreen.tsx:186-205 | a clear action sends one archive request per listed item |
| GroceryScreen.ArchiveServed | mobile-app/src/screens/GroceriesScreen.tsx:186-205 | served in order, those requests archive exactly the items whose id is listed and leave the rest unchanged |
| GroceryScreen.ListsIdExactly | mobile-app/src/screens/GroceriesScreen.tsx:186-205 | with distinct ids, an item's id is listed exactly when the item passes the action's filter |
| GroceryScreen.ClearGotArchivesGot | mobile-app/src/screens/GroceriesScreen.tsx:186-191 | "all got it" archives exactly the GOT and CHECKED items |
| GroceryScreen.ClearNeedArchivesNeeded | mobile-app/src/screens/GroceriesScreen.tsx:193-198 | "all need" archives exactly the NEEDED and PENDING items |
| GroceryScreen.ClearStoreArchivesStore | mobile-app/src/screens/GroceriesScreen.tsx:200-206 | clearing a store archives exactly the needed items of that store key ("No Store" for none) |
| GroceryScreen.Screen.MoveToGot | mobile-app/src/screens/GroceriesScreen.tsx:106-115 | carries out one update, GOT with the given count plus one, unless the server refuses it, in which case nothing changes |
| GroceryScreen.Screen.MoveToNeeded | mobile-app/src/screens/GroceriesScreen.tsx:117-126 | carries out one update, NEEDED with the count untouched, unless the server refuses it |
| GroceryScreen.Screen.ArchiveItem | mobile-app/src/screens/GroceriesScreen.tsx:128-137 | carries out one update to ARCHIVED unless the server refuses it |
| GroceryScreen.Completed | mobile-app/src/screens/GroceriesScreen.tsx:186-205 | a clear loop gets through its whole list exactly when the server refuses none of its updates, and otherwise stops at the first refused one |
| GroceryScreen.Screen.OpenClearMenu | mobile-app/src/screens/GroceriesScreen.tsx:215 | the clear button opens the menu and changes nothing else |
| GroceryScreen.Screen.CloseClearMenu | mobile-app/src/screens/GroceriesScreen.tsx:229-271 | cancel, the overlay and the back gesture close the menu and change nothing else |
| GroceryScreen.Screen.ArchiveAll | mobile-app/src/screens/GroceriesScreen.tsx:186-205 | a clear loop carries out the archive requests of its list up to the first refused one, and reports whether it reached the end |
| GroceryScreen.Screen.ClearAllGotIt | mobile-app/src/screens/GroceriesScreen.tsx:186-191 | the got items are archived in order up to the first refusal; the menu closes only when none was refused |
| GroceryScreen.Screen.ClearAllNeed | mobile-app/src/screens/GroceriesScreen.tsx:193-198 | the needed items are archived in order up to the first refusal; the menu closes only when none was refused |
| GroceryScreen.Screen.ClearByStore | mobile-app/src/screens/GroceriesScreen.tsx:200-206 | the store's needed items are archived in order up to the first refusal; the menu closes only when none was refused |
| GroceryController.PendingItems | wpclife-backend/src/main/java/com/wpclife/controller/GroceryController.java:37 | exactly the household's unchecked items, in stored order |
| GroceryController.CheckedItems | wpclife-backend/src/main/java/com/wpclife/controller/GroceryController.java:84 | exactly the household's checked items |
| GroceryController.Remaining | wpclife-backend/src/main/java/com/wpclife/controller/GroceryController.java:84-85 | exactly the documents that are not checked items of the household |
| GroceryController.DeleteMatching | wpclife-backend/src/main/java/com/wpclife/controller/GroceryController.java:85 | deleting the ids of exactly the household's checked documents leaves the remaining ones |
| GroceryController.ClearRemovesChecked | wpclife-backend/src/main/java/com/wpclife/controller/GroceryController.java:79-88 | with unique ids, `deleteAll` of the checked items removes exactly those and keeps every other document in order |
| GroceryController.NewItem | wpclife-backend/src/main/java/com/wpclife/controller/GroceryController.java:48-57 | a new item is unchecked, copies name, category and needed-by date from the request, and takes the user's id and household |
| GroceryController.Toggled | wpclife-backend/src/main/java/com/wpclife/controller/GroceryController.java:67 | toggling flips `checked` and changes nothing else |
| GroceryController.ToggleIn | wpclife-backend/src/main/java/com/wpclife/controller/GroceryController.java:62-71 | a toggle succeeds exactly when the id is stored |
| GroceryController.ToggleTwiceRestores | wpclife-backend/src/main/java/com/wpclife/controller/GroceryController.java:62-71 | toggling the same item twice restores the collection |
| GroceryController.Controller.GetPendingGroceries | wpclife-backend/src/main/java/com/wpclife/controller/GroceryController.java:33-38 | an unknown user is an error; otherwise exactly the household's unchecked items are returned |
| GroceryController.Controller.AddGroceryItem | wpclife-backend/src/main/java/com/wpclife/controller/GroceryController.java:40-60 | an invalid request is refused and an unknown user is an error, both leaving the store alone; otherwise the new item is appended under the fresh id and returned |
| GroceryController.Controller.ToggleItem | wpclife-backend/src/main/java/com/wpclife/controller/GroceryController.java:62-71 | an unknown id is "Item not found" with the store unchanged; otherwise the flipped item is saved in place and returned |
| GroceryController.Controller.ClearCheckedItems | wpclife-backend/src/main/java/com/wpclife/controller/GroceryController.java:79-88 | an unknown user is an error; otherwise exactly the household's checked items are deleted |
| ChoreController.PendingChores | wpclife-backend/src/main/java/com/wpclife/controller/ChoreController.java:39 | exactly the household's chores that are not completed |
| ChoreController.CompletedChores | wpclife-backend/src/main/java/com/wpclife/controller/ChoreController.java:47 | exactly the household's completed chores |
| ChoreController.WrapAdd | wpclife-backend/src/main/java/com/wpclife/controller/ChoreController.java:52 | summing in 32-bit arithmetic step by step wraps like one wrap of the exact sum |
| ChoreController.AssignedSnoc | wpclife-backend/src/main/java/com/wpclife/controller/ChoreController.java:49-53 | one more chore adds its assignee, and keeps "all assigned" only when it has one |
| ChoreController.PointsForUnassigned | wpclife-backend/src/main/java/com/wpclife/controller/ChoreController.java:49-53 | a member with no completed chore has no points |
| ChoreController.TallyDefined | wpclife-backend/src/main/java/com/wpclife/controller/ChoreController.java:49-53 | the grouping succeeds exactly when every completed chore has an assignee (a null key throws) |
| ChoreController.TallySums | wpclife-backend/src/main/java/com/wpclife/controller/ChoreController.java:49-53 | its keys are exactly the assignees, each mapped to the 32-bit wrapped sum of their points |
| ChoreController.TallyStep | wpclife-backend/src/main/java/com/wpclife/controller/ChoreController.java:49-53 | the tally of a longer list credits the last chore's points to its assignee |
| ChoreController.LeaderboardCountsCompletedOnly | wpclife-backend/src/main/java/com/wpclife/controller/ChoreController.java:42-56 | a member whose chores are all open scores nothing |
| ChoreController.NewChore | wpclife-backend/src/main/java/com/wpclife/controller/ChoreController.java:66-78 | a new chore is open with no completion time, and copies title, description, assignee, start, due date and points from the request, with the user's household and id |
| ChoreController.MarkCompleted | wpclife-backend/src/main/java/com/wpclife/controller/ChoreController.java:88-89 | completing sets completed and stamps the time, changing nothing else |
| ChoreController.CompleteTwice | wpclife-backend/src/main/java/com/wpclife/controller/ChoreController.java:83-93 | completing twice is completing once at the later time, and stays completed |
| ChoreController.CompleteIn | wpclife-backend/src/main/java/com/wpclife/controller/ChoreController.java:83-93 | completion succeeds exactly when the id is stored |
| ChoreController.CompleteInTwice | wpclife-backend/src/main/java/com/wpclife/controller/ChoreController.java:83-93 | repeating a completion keeps the chore completed and only moves its time |
| ChoreController.Controller.GetPendingChores | wpclife-backend/src/main/java/com/wpclife/controller/ChoreController.java:35-40 | an unknown user is an error; otherwise exactly the household's open chores are returned |
| ChoreController.Controller.GetLeaderboard | wpclife-backend/src/main/java/com/wpclife/controller/ChoreController.java:42-56 | an unknown user is an error; a completed chore without an assignee is a null-key error; otherwise the tally of the household's completed chores |
| ChoreController.Controller.CreateChore | wpclife-backend/src/main/java/com/wpclife/controller/ChoreController.java:58-81 | an invalid request is refused and an unknown user is an error, both leaving the store alone; otherwise the new chore is appended and returned |
| ChoreController.Controller.CompleteChore | wpclife-backend/src/main/java/com/wpclife/controller/ChoreController.java:83-93 | an unknown id is "Chore not found" with the store unchanged; otherwise the chore is completed in place and returned |
| MedicationController.NewMedication | wpclife-backend/src/main/java/com/wpclife/controller/MedicationController.java:45-57 | a new medication copies name, dosage, instructions, the three time-of-day flags, inventory and assignee from the request, with the user's household |
| MedicationController.AfterDose | wpclife-backend/src/main/java/com/wpclife/controller/MedicationController.java:73-76 | inventory drops by exactly one when the status is TAKEN and stock is positive; otherwise the medication is unchanged |
| MedicationController.DoseKeepsStock | wpclife-backend/src/main/java/com/wpclife/controller/MedicationController.java:73-76 | logging never makes a non-negative inventory negative or larger, and SKIPPED and MISSED leave it alone |
| MedicationController.TakenDosesRunDown | wpclife-backend/src/main/java/com/wpclife/controller/MedicationController.java:73-76 | n TAKEN logs take a non-negative stock to max(stock - n, 0) and change nothing else |
| MedicationController.TakenTime | wpclife-backend/src/main/java/com/wpclife/controller/MedicationController.java:83 | the taken time is the request's, or now when it has none |
| MedicationController.NewLog | wpclife-backend/src/main/java/com/wpclife/controller/MedicationController.java:78-87 | the log copies the medication id, status, scheduled time and notes, with the user's id and household and the taken time above |
| MedicationController.Controller.CreateMedication | wpclife-backend/src/main/java/com/wpclife/controller/MedicationController.java:37-60 | an invalid request is refused and an unknown user is an error, both leaving the store alone; otherwise the new medication is appended and returned |
| MedicationController.Controller.LogMedication | wpclife-backend/src/main/java/com/wpclife/controller/MedicationController.java:62-90 | invalid request, unknown user and unknown medication change nothing; otherwise the stock rule is applied in place and the new log is appended and returned |
| MedicationController.Controller.UpdateInventory | wpclife-backend/src/main/java/com/wpclife/controller/MedicationController.java:97-107 | an unknown id is an error; otherwise the inventory becomes exactly the given quantity, unchecked, and nothing else changes |
| Records.GetPut | mobile-app/src/screens/GroceriesScreen.tsx:147 | after assigning a key, reading it gives the new value and every other key reads as before |
| Records.KeysPut | mobile-app/src/screens/GroceriesScreen.tsx:147-150 | assigning keeps the key order, a new key going last as `Object.entries` lists it |
| Records.MirrorsPut | mobile-app/src/screens/GroceriesScreen.tsx:146-147 | a JavaScript object assignment and the ordered record update stay in step |
| Records.EntriesOf | mobile-app/src/screens/GroceriesScreen.tsx:150 | `Object.entries` lists each key once with its value, in key order |
| Records.MirroredEntries | mobile-app/src/screens/GroceriesScreen.tsx:150 | the listed entries are exactly the record the object mirrors |
| MongoStore.Where | wpclife-backend/src/main/java/com/wpclife/controller/GroceryController.java:37 | a derived query keeps exactly the documents that match, in stored order |
| MongoStore.DeleteIds | wpclife-backend/src/main/java/com/wpclife/controller/GroceryController.java:85 | `deleteAll` keeps exactly the documents whose id is not deleted |
| MongoStore.DeleteKeepsUnique | wpclife-backend/src/main/java/com/wpclife/controller/GroceryController.java:85 | deleting keeps ids unique |
| MongoStore.SaveNew | wpclife-backend/src/main/java/com/wpclife/controller/GroceryController.java:59 | saving under a new id appends the document and keeps ids unique |
| MongoStore.SaveExisting | wpclife-backend/src/main/java/com/wpclife/controller/GroceryController.java:70 | saving under a stored id replaces it in place, keeping the ids |
| MongoStore.SaveSame | wpclife-backend/src/main/java/com/wpclife/controller/ChoreController.java:92 | saving a document unchanged leaves the collection as it was |
| MongoStore.SaveTwice | wpclife-backend/src/main/java/com/wpclife/controller/ChoreController.java:92 | a second save of the same id overrides the first |
| Medicine.ActiveOnWindow | client/src/pages/Medications.tsx:98-103 | a medicine is active on a date exactly when it is active and the date lies within its start and end dates, an empty bound being open |
| Medicine.InvertedWindowNeverActive | client/src/pages/Medications.tsx:100-101 | a medicine whose end date is before its start date is never active |
| Medicine.LoggingMarksTaken | client/src/pages/Medications.tsx:50-58 | after one more log a dose is taken exactly when it was already or the new log matches its medicine, time and day |
| Medicine.InvalidLogMarksNothing | client/src/pages/Medications.tsx:52-56 | a log whose time is an Invalid Date marks no dose taken |
| Medicine.DoseStatusByCount | client/src/pages/Medications.tsx:324-331 | the card is Taken exactly when all doses are taken, Partial when some are, and Pending when none are |
| Medicine.LoggedTimesTaken | mobile-app/src/screens/MedicationsScreen.tsx:199-202 | a time is among today's logged times of a medicine exactly when that dose is taken today |
| Medicine.TakenFlags | client/src/pages/Medications.tsx:392 | one flag per scheduled time, set exactly when that dose is taken today |
| Medicine.SlotTimesListed | client/src/pages/Medications.tsx:77-80 | the chosen slots give 08:00, 14:00 and 20:00 exactly when ticked, once each, in order |
| Medicine.PushSlotTimes | client/src/pages/Medications.tsx:77-80 | the pushes build exactly those times |
| Medicine.InventoryOf | client/src/pages/Medications.tsx:85 | `parseInt(quantity) \|\| 0`: the parsed number, or 0 when it does not parse |
| Medicine.TakenCount | client/src/pages/Medications.tsx:118 | a medicine never counts more taken doses than it has times |
| Medicine.TakenWithinTotal | client/src/pages/Medications.tsx:115-123 | the taken doses are between 0 and the total doses |
| Medicine.ProgressBounds | mobile-app/src/screens/MedicationsScreen.tsx:109 | the rounded percentage of a count within its total lies between 0 and 100, is 0 with nothing taken and 100 with everything taken |
| Medicine.ActiveMeds | client/src/pages/Medications.tsx:114 | exactly the medicines active on the date, in order |
| Medicine.TotalsSnoc | client/src/pages/Medications.tsx:115-123 | one more medicine adds its number of times to the total and its taken count to the taken doses |
| MedicationsPage.AddMedicine | client/src/pages/Medications.tsx:75-96 | nothing is sent exactly when there is no family, no name or no assignee; otherwise the chosen times, parsed inventory, dates with "" as null and the assignee are sent |
| MedicationsPage.ActiveTodayIsActiveOn | client/src/pages/Medications.tsx:98-103 | the page's early-return test is the active-on-date reference |
| MedicationsPage.ReduceStatsTotals | client/src/pages/Medications.tsx:115-123 | the reduce yields the total and taken doses of the list |
| MedicationsPage.TodayStatsBounds | client/src/pages/Medications.tsx:113-123 | today's status counts the active medicines, taken never above total |
| MedicationsPage.FilterSameTest | client/src/pages/Medications.tsx:114 | filtering by the page's test keeps the same medicines as the reference |
| MedicationsPage.AllDosesTakenIffStatus | client/src/pages/Medications.tsx:325 | "all doses taken" holds exactly when there is a time and every one is taken, which is the Taken status |
| MedicationsScreen.AddMedicine | mobile-app/src/screens/MedicationsScreen.tsx:44-66 | nothing is sent exactly when the name is blank; otherwise the chosen times (08:00 when none), parsed inventory and active are sent |
| MedicationsScreen.AddedMedicineHasTimes | mobile-app/src/screens/MedicationsScreen.tsx:47-52 | a sent medicine has one to three times, 08:00 among them exactly when morning was chosen or no slot was |
| MedicationsScreen.TimeLabel | mobile-app/src/screens/MedicationsScreen.tsx:89-94 | the three slot times get their names; any other time is shown as is |
| MedicationsScreen.TodayLogs | mobile-app/src/screens/MedicationsScreen.tsx:104-106 | exactly the logs of that medicine taken today |
| MedicationsScreen.TodayStats | mobile-app/src/screens/MedicationsScreen.tsx:96-110 | the loop totals the active medicines' times and their logs of today, with the rounded percentage |
| MedicationsScreen.TimeButtonTaken | mobile-app/src/screens/MedicationsScreen.tsx:199-226 | a time button is disabled exactly when that dose is taken today |
| MedicationsScreen.RepeatedLogOvercounts | mobile-app/src/screens/MedicationsScreen.tsx:104-109 | two logs of one dose count twice, so the status can read 2 of 1 and 200% |
| TodaySchedule.TodayReminders | client/src/components/DashboardWidgets.tsx:141-145 | exactly the reminders whose start falls between today's midnight and tomorrow's |
| TodaySchedule.TodayChores | client/src/components/DashboardWidgets.tsx:147-150 | exactly the chores with a due date equal to today's date text |
| TodaySchedule.FindMember | client/src/components/DashboardWidgets.tsx:202 | `find` gives a member with that id from the list, or nothing exactly when no member has it |
| TodaySchedule.DosesOf | client/src/components/DashboardWidgets.tsx:174-178 | one dose per scheduled time, in order, flagged taken exactly when a log marks it taken today |
| TodaySchedule.ScheduleLayout | client/src/components/DashboardWidgets.tsx:191-213 | the schedule lists today's reminders, then the medications active today, then the chores due today only with "view all", each in its own order |
| TodaySchedule.MedicationItemStatus | client/src/components/DashboardWidgets.tsx:179-187 | a medication is TAKEN when every dose is taken (also with no doses), PARTIAL when some are and PENDING when none are |
| TodaySchedule.FlagsCount | client/src/components/DashboardWidgets.tsx:175-180 | the number of set flags is the medication's taken count |
| DashboardWidgets.MedicationTracker | client/src/components/DashboardWidgets.tsx:415-442 | the loop counts the active medicines, their doses and the doses taken today, taken never above total, with the rounded percentage between 0 and 100 |
| DashboardWidgets.EarlierIsStrictWeak | client/src/components/DashboardWidgets.tsx:558 | the start-time comparator is a strict weak order on reminders with a valid start |
| DashboardWidgets.UpcomingRemindersSoonest | client/src/components/DashboardWidgets.tsx:550-559 | at most five reminders, each from the list with a start now or later, sorted by start, none later than an upcoming one left out |
| DashboardWidgets.ShownAreUpcoming | client/src/components/DashboardWidgets.tsx:557 | every shown reminder is from the list and upcoming |
| DashboardWidgets.UpcomingAtHolds | client/src/components/DashboardWidgets.tsx:557 | the filter's test is the upcoming predicate |
| DashboardWidgets.LeftOutNotSooner | client/src/components/DashboardWidgets.tsx:557-559 | an upcoming reminder left out starts no earlier than any shown one |
| DashboardWidgets.SoonestSorted | client/src/components/DashboardWidgets.tsx:558-559 | the first five after sorting are in start order |
| DashboardWidgets.SoonestFirst | client/src/components/DashboardWidgets.tsx:558-559 | a reminder in the first five starts no later than one outside them |
| DashboardWidgets.GrocerySummaryWithinList | client/src/components/DashboardWidgets.tsx:522-523 | the needed and purchased counts together never exceed the list |
| DashboardWidgets.GotCountedInNeither | client/src/components/DashboardWidgets.tsx:522-523 | an item with status GOT counts as neither needed nor purchased |
| DashboardWidgets.MorePointsIsStrictWeak | client/src/components/DashboardWidgets.tsx:480 | the chore-points comparator, a missing value weighing 0, is a strict weak order |
| DashboardWidgets.LeaderboardOfChildren | client/src/components/DashboardWidgets.tsx:478-482 | with a child in the family the leaderboard is the children, a permutation of them, by non-increasing points |
| DashboardWidgets.LeaderboardWithoutChildren | client/src/components/DashboardWidgets.tsx:482 | with no child it is the first five members in order |
| DashboardWidgets.DefaultWidgetsLayout | client/src/components/DashboardWidgets.tsx:698-709 | the default layout has the eight widgets, each once, visible, numbered by position in the fixed order |
| DashboardPage.RenderedWidgetsAreVisible | client/src/pages/Dashboard.tsx:353 | the rendered widgets are exactly the visible widgets of the saved layout, or of the default one when none is saved |
| DashboardPage.RenderedWidgetsOrdered | client/src/pages/Dashboard.tsx:353 | they are rendered in increasing position |
| DashboardPage.ByPositionOfSorted | client/src/pages/Dashboard.tsx:109-113 | the edit list starts sorted by position |
| DashboardPage.UnsavedShowsDefaults | client/src/pages/Dashboard.tsx:106 | with no saved layout the eight default widgets are shown |
| DashboardPage.Swap | client/src/pages/Dashboard.tsx:335-337 | the two entries trade places and the others stay |
| DashboardPage.Renumber | client/src/pages/Dashboard.tsx:338 | every widget's position is set to its index, nothing else changing |
| DashboardPage.MovedLayout | client/src/pages/Dashboard.tsx:331-340 | a move past either end changes nothing; otherwise the widget trades places with its neighbour, the list is renumbered and no widget is lost or added |
| DashboardPage.MoveBack | client/src/pages/Dashboard.tsx:331-340 | moving a widget and then moving it back restores a numbered layout |
| DashboardPage.Toggled | client/src/pages/Dashboard.tsx:342-346 | toggling flips one widget's visibility and changes nothing else |
| DashboardPage.ToggleTwice | client/src/pages/Dashboard.tsx:342-346 | toggling twice restores the layout |
| DashboardPage.SmartResultOf | client/src/pages/Dashboard.tsx:177-202 | success exactly when something was created; a failed call gives the fixed failure message and no items |
| DashboardPage.SummarySucceeds | client/src/pages/Dashboard.tsx:179-185 | on the route's summary, success means a positive total and the message names it |
| DashboardPage.SortedCopyAliased | client/src/pages/Dashboard.tsx:111 | the sorted copy of a cached layout holds its widgets by position, each entry being the cached widget it came from and no cached widget twice |
| DashboardPage.EditCopy | client/src/pages/Dashboard.tsx:106-113 | the copy taken on entering edit mode is the layout by position; with a cached layout every entry is that cached object, with the defaults none is |
| DashboardPage.Page.EnterEditMode | client/src/pages/Dashboard.tsx:109-113 | entering edit mode copies the layout sorted by position, every entry sharing its object with the cached layout when there is one |
| DashboardPage.Page.MoveWidget | client/src/pages/Dashboard.tsx:331-340 | the edit list becomes the moved layout; each cached widget an entry shares takes that entry's new index as its position, and the other cached widgets are untouched |
| DashboardPage.Page.ToggleWidgetVisibility | client/src/pages/Dashboard.tsx:342-346 | the edit list becomes the toggled layout, and the toggled entry, now a copy, shares nothing with the cache |
| DashboardPage.Page.CancelEdit | client/src/pages/Dashboard.tsx:474 | cancel only leaves edit mode, so renumbered cached widgets keep their positions |
| DashboardPage.Page.SaveWidgetConfig | client/src/pages/Dashboard.tsx:348-351 | saving sends the edit list and leaves edit mode |
| DashboardPage.Page.Refetch | client/src/pages/Dashboard.tsx:98-103 | a refetch replaces the cached layout with fresh objects that no edit entry shares |
| DashboardPage.Page.ProcessSmartInput | client/src/pages/Dashboard.tsx:171-206 | nothing happens with blank text or a request in flight; otherwise the result is recorded, processing ends, and the text clears only on success |
| DashboardPage.AddReminder | client/src/pages/Dashboard.tsx:216-237 | refused exactly without a family or with a blank title; otherwise a Family reminder at the given date (today by default) and time (12:00 by default), ending when it starts |
| DashboardPage.AddChore | client/src/pages/Dashboard.tsx:239-260 | refused exactly without a family, with a blank title or no assignee; otherwise a PENDING chore due on the given date (today by default) |
| DashboardPage.AddMedicine | client/src/pages/Dashboard.tsx:262-290 | refused without a family or name, and without any time of day; otherwise the chosen times, parsed inventory, start date (today by default) and active |
| DashboardPage.AddGrocery | client/src/pages/Dashboard.tsx:292-308 | refused exactly without a family or with a blank name; otherwise a NEEDED item with its quantity or none |
| DashboardPage.AddedMedicineTimes | client/src/pages/Dashboard.tsx:267-275 | a sent medicine has one to three times, in order, each present exactly when chosen |
| DashboardPage.DoseClickMarksTaken | client/src/pages/Dashboard.tsx:312-329 | after a click the dose is taken today, and every other dose keeps its state |
| DashboardScreen.TodayChores | mobile-app/src/screens/DashboardScreen.tsx:57 | exactly the chores due today that are not COMPLETED |
| DashboardScreen.ShowsPendingIffUntaken | mobile-app/src/screens/DashboardScreen.tsx:58-65 | the screen's test is "active with a dose not taken today" |
| DashboardScreen.PendingMeds | mobile-app/src/screens/DashboardScreen.tsx:58-65 | exactly the medicines passing that test, in order |
| DashboardScreen.PendingMedsExact | mobile-app/src/screens/DashboardScreen.tsx:58-65 | a medicine is pending exactly when it is active and has an untaken dose today |
| DashboardScreen.UpcomingAreListed | mobile-app/src/screens/DashboardScreen.tsx:67-71 | at most three reminders, each active and starting now or later |
| DashboardScreen.UpcomingFirstThree | mobile-app/src/screens/DashboardScreen.tsx:67-71 | they are the first three such in list order, unsorted |
| DashboardScreen.AddReminder | mobile-app/src/screens/DashboardScreen.tsx:37-52 | a blank title sends nothing; otherwise a Custom one-off reminder starting now, and on success the title clears and the dialog closes |
| DashboardScreen.AddTwiceSendsOnce | mobile-app/src/screens/DashboardScreen.tsx:37-52 | after a successful add, pressing again sends nothing |
| DashboardComponent.FirstSeenKeys | wpclife-frontend/src/app/features/dashboard/dashboard.component.ts:931-941 | the map's keys are the assignees of completed chores, each once, in order of first appearance |
| DashboardComponent.NameOf | wpclife-frontend/src/app/features/dashboard/dashboard.component.ts:935-936 | the member's name when found and non-empty, "Unknown" when no member has the id |
| DashboardComponent.ByPointsSorted | wpclife-frontend/src/app/features/dashboard/dashboard.component.ts:943 | the entries sort by non-increasing points |
| DashboardComponent.ByPointsTopIsMaximal | wpclife-frontend/src/app/features/dashboard/dashboard.component.ts:943-944 | an entry in the top five has at least the points of any entry left out |
| DashboardComponent.EntriesFacts | wpclife-frontend/src/app/features/dashboard/dashboard.component.ts:941-942 | one distinct entry per first-seen assignee, carrying that assignee's name and total |
| DashboardComponent.SortedEntriesFacts | wpclife-frontend/src/app/features/dashboard/dashboard.component.ts:941-943 | sorting keeps those entries and orders them by points |
| DashboardComponent.LeaderboardRanked | wpclife-frontend/src/app/features/dashboard/dashboard.component.ts:930-945 | at most five rows, by non-increasing points, distinct users, each the total of a member with a completed chore |
| DashboardComponent.LeaderboardOrdered | wpclife-frontend/src/app/features/dashboard/dashboard.component.ts:941-944 | at most five rows, ordered by points, with distinct users |
| DashboardComponent.LeaderboardRows | wpclife-frontend/src/app/features/dashboard/dashboard.component.ts:933-942 | every row is its user's total, and that user completed a chore |
| DashboardComponent.LeaderboardTopFive | wpclife-frontend/src/app/features/dashboard/dashboard.component.ts:930-945 | an assignee of a completed chore is on the board, or the board is full of rows with at least their points |
| DashboardComponent.CountedHasEntry | wpclife-frontend/src/app/features/dashboard/dashboard.component.ts:933-942 | every assignee of a completed chore has an entry |
| DashboardComponent.OffBoardMeansFull | wpclife-frontend/src/app/features/dashboard/dashboard.component.ts:943-944 | an entry off the board means five rows, each with at least its points |
| DashboardComponent.DomainStep | wpclife-frontend/src/app/features/dashboard/dashboard.component.ts:934-938 | the map's keys and their first-seen order stay in step through one chore |
| DashboardComponent.ValuesStep | wpclife-frontend/src/app/features/dashboard/dashboard.component.ts:933-938 | each value stays the name and points total of the chores seen so far |
| DashboardComponent.BumpedValues | wpclife-frontend/src/app/features/dashboard/dashboard.component.ts:934-938 | a counted chore adds its points (0 when missing) to its assignee and refreshes the name |
| DashboardComponent.TallyStep | wpclife-frontend/src/app/features/dashboard/dashboard.component.ts:933-939 | the loop invariant survives one more chore, counted or skipped |
| DashboardComponent.TallyRows | wpclife-frontend/src/app/features/dashboard/dashboard.component.ts:941-942 | one row per key, in key order, with that key's points |
| DashboardComponent.TallyEntries | wpclife-frontend/src/app/features/dashboard/dashboard.component.ts:941-942 | after the loop the rows are the reference entries |
| DashboardComponent.SmartResultOf | wpclife-frontend/src/app/features/dashboard/dashboard.component.ts:974-1000 | success exactly when something was created; an HTTP error gives the fixed failure message and no items |
| DashboardComponent.SmartResultsAgree | wpclife-frontend/src/app/features/dashboard/dashboard.component.ts:975-981 | given a reply, the Angular and React dashboards agree on success and message |
| DashboardComponent.TallyChores | wpclife-frontend/src/app/features/dashboard/dashboard.component.ts:930-942 | the forEach over completed chores builds exactly the reference entries |
| DashboardComponent.Dashboard.CalculateLeaderboard | wpclife-frontend/src/app/features/dashboard/dashboard.component.ts:930-945 | the board becomes the leaderboard of the chores and nothing else changes |
| DashboardComponent.Dashboard.ProcessSmartInput | wpclife-frontend/src/app/features/dashboard/dashboard.component.ts:963-1002 | nothing happens with blank text or a request in flight; otherwise the result is recorded, processing ends, and the text clears only on success |
| DashboardComponent.Dashboard.ResultExpired | wpclife-frontend/src/app/features/dashboard/dashboard.component.ts:990-992 | the timer clears the shown result and nothing else |
| DashboardComponent.Dashboard.DoseClick | wpclife-frontend/src/app/features/dashboard/dashboard.component.ts:914-928 | a dose already taken or no family sends nothing; otherwise one TAKEN log for that dose is added |
| CalendarPage.Weekday | client/src/pages/Calendar.tsx:53 | the day of the week is 0 (Sunday) to 6 |
| CalendarPage.WeekDays | client/src/pages/Calendar.tsx:54 | the week view always shows seven days |
| CalendarPage.WeekDaysFromSunday | client/src/pages/Calendar.tsx:53-54 | they start on a Sunday, run on consecutive days and contain the current day |
| CalendarPage.NextWeekFollows | client/src/pages/Calendar.tsx:53-54 | the week of a day seven later is the same week shifted by seven days |
| CalendarPage.Step | client/src/pages/Calendar.tsx:186-190 | navigation moves 7 days in the week view and 1 in the day view |
| CalendarPage.Calendar.NavigatePrev | client/src/pages/Calendar.tsx:185-187 | back one step, the view unchanged |
| CalendarPage.Calendar.NavigateNext | client/src/pages/Calendar.tsx:189-191 | forward one step, the view unchanged |
| CalendarPage.Calendar.GoToToday | client/src/pages/Calendar.tsx:193-195 | the current day becomes today, the view unchanged |
| CalendarPage.Calendar.OpenDay | client/src/pages/Calendar.tsx:515 | clicking a day in the week opens it in the day view |
| CalendarPage.RemindersForDay | client/src/pages/Calendar.tsx:76-81 | exactly the reminders with a start that falls on the day |
| CalendarPage.ChoresForDay | client/src/pages/Calendar.tsx:88-91 | exactly the chores whose due date is the day's date text |
| CalendarPage.ItemCount | client/src/pages/Calendar.tsx:93-95 | the count is at most the sizes of the lists together, and 0 exactly when the day has nothing |
| CalendarPage.SlotsOfHour | client/src/pages/Calendar.tsx:590-597 | hours 6 to 11 are morning, 12 to 16 afternoon and 17 to 21 evening; other hours fall in no slot, and no hour falls in two |
| CalendarPage.DayViewPlacement | client/src/pages/Calendar.tsx:590-602 | each of the three slots holds exactly the day's reminders starting in it and the day's medications with that slot's time, and only the morning slot holds the chores |
| CalendarPage.AddedMedicationSlots | client/src/pages/Calendar.tsx:165-168 | a medicine added with chosen slots shows in exactly those slots |
| CalendarPage.SlotClockTime | client/src/pages/Calendar.tsx:19-23 | the slot times read as 8:00, 14:00 and 20:00 |
| CalendarPage.OnTheHour | client/src/pages/Calendar.tsx:99 | an "HH:00" time splits to that hour and minute 0 |
| CalendarPage.SlotLogOnDay | client/src/pages/Calendar.tsx:97-102 | the log is dated at the slot's time on the chosen day, so it counts for that day |
| CalendarPage.TakeClickMarksTaken | client/src/pages/Calendar.tsx:632-658 | on a future day the button sends nothing; otherwise that dose becomes taken on that day and every other dose keeps its state |
| CalendarPage.AddReminder | client/src/pages/Calendar.tsx:114-138 | refused exactly with a blank title; otherwise the trimmed title, a trimmed description or none, and a start at the given date (the current day by default) and time (09:00 by default) |
| CalendarPage.AddChore | client/src/pages/Calendar.tsx:139-158 | refused exactly with a blank title; otherwise a PENDING chore due on the given date (the current day by default) |
| CalendarPage.AddMedicine | client/src/pages/Calendar.tsx:160-183 | refused exactly with a blank name; otherwise the chosen times, parsed inventory and the start date (the current day by default) |
| CalendarScreen.AddDays | mobile-app/src/screens/CalendarScreen.tsx:33-34 | moving n days gives a valid date n day numbers away |
| CalendarScreen.NextDayIsTomorrow | mobile-app/src/screens/CalendarScreen.tsx:34 | the next day is the next day of the month, or the first of the next month at a month's end |
| CalendarScreen.PrevUndoesNext | mobile-app/src/screens/CalendarScreen.tsx:33-34 | previous then next, or next then previous, returns to the same date |
| CalendarScreen.ReminderEventsExact | mobile-app/src/screens/CalendarScreen.tsx:41-52 | one row per active reminder starting on the day, in order |
| CalendarScreen.DoseEventsExact | mobile-app/src/screens/CalendarScreen.tsx:60-70 | one row per scheduled time, completed exactly when that dose was logged on the day |
| CalendarScreen.MedEventsCount | mobile-app/src/screens/CalendarScreen.tsx:54-71 | the active medicines give as many rows as they have times together |
| CalendarScreen.ChoreEventsExact | mobile-app/src/screens/CalendarScreen.tsx:73-83 | one "All day" row per chore due that day, completed exactly when its status is COMPLETED |
| CalendarScreen.TimeBeforeIsStrictWeak | mobile-app/src/screens/CalendarScreen.tsx:85 | comparing the time texts is a strict weak order |
| CalendarScreen.EventsSorted | mobile-app/src/screens/CalendarScreen.tsx:85 | the agenda is the pushed rows, sorted by time text, none lost or added |
| CalendarScreen.PushReminders | mobile-app/src/screens/CalendarScreen.tsx:41-52 | the loop appends the reminder rows |
| CalendarScreen.PushDoses | mobile-app/src/screens/CalendarScreen.tsx:60-70 | the inner loop appends one row per time |
| CalendarScreen.PushMedicines | mobile-app/src/screens/CalendarScreen.tsx:54-71 | the loop appends the medicine rows |
| CalendarScreen.PushChores | mobile-app/src/screens/CalendarScreen.tsx:73-83 | the loop appends the chore rows |
| CalendarScreen.GetEventsForDate | mobile-app/src/screens/CalendarScreen.tsx:37-86 | the method computes exactly the sorted agenda |
| CalendarScreen.Screen.GoToPrevDay | mobile-app/src/screens/CalendarScreen.tsx:33 | the selected date moves back one day |
| CalendarScreen.Screen.GoToNextDay | mobile-app/src/screens/CalendarScreen.tsx:34 | the selected date moves forward one day |
| CalendarScreen.Screen.GoToToday | mobile-app/src/screens/CalendarScreen.tsx:35 | the selected date becomes today |
| CalendarComponent.DaysInMonth | wpclife-frontend/src/app/features/calendar/calendar.component.ts:284 | a month has 28 to 31 days, as `new Date(y, m + 1, 0)` gives them |
| CalendarComponent.Weekday | wpclife-frontend/src/app/features/calendar/calendar.component.ts:289 | `getDay` is 0 (Sunday) to 6 |
| CalendarComponent.MultiplesStep | wpclife-frontend/src/app/features/calendar/calendar.component.ts:283-284 | one more year adds one multiple of b exactly when the year is one |
| CalendarComponent.YearStep | wpclife-frontend/src/app/features/calendar/calendar.component.ts:283-284 | the days before the next year are the days before this one plus its length |
| CalendarComponent.LeapCount | wpclife-frontend/src/app/features/calendar/calendar.component.ts:284 | the Gregorian leap rule is the four-, hundred- and four-hundred-year count |
| CalendarComponent.MonthStep | wpclife-frontend/src/app/features/calendar/calendar.component.ts:284 | the next month starts a month's length after this one |
| CalendarComponent.Normal | wpclife-frontend/src/app/features/calendar/calendar.component.ts:290 | the Date constructor's day overflow: day d of a month is d - 1 days after its first, normalised into a valid date |
| CalendarComponent.JsDate | wpclife-frontend/src/app/features/calendar/calendar.component.ts:283-311 | `new Date(y, m, d)` is a valid date, the month normalised by Euclidean division and the day counted from the first |
| CalendarComponent.LaterMonthStartsLater | wpclife-frontend/src/app/features/calendar/calendar.component.ts:284 | a later month starts after the earlier one ends |
| CalendarComponent.DayNumberInjective | wpclife-frontend/src/app/features/calendar/calendar.component.ts:305 | two valid dates with the same day number are the same date |
| CalendarComponent.MonthRoll | wpclife-frontend/src/app/features/calendar/calendar.component.ts:329-334 | month + 1 and month - 1 roll over the year as the next and previous month |
| CalendarComponent.FirstAndLastDay | wpclife-frontend/src/app/features/calendar/calendar.component.ts:283-284 | day 1 is the first of the month and day 0 of the next month is the last |
| CalendarComponent.MonthShift | wpclife-frontend/src/app/features/calendar/calendar.component.ts:328-336 | the month buttons land on the first of the previous or next month |
| CalendarComponent.PrevNextInverse | wpclife-frontend/src/app/features/calendar/calendar.component.ts:328-336 | previous then next returns to the first of the month |
| CalendarComponent.MonthShiftIsOneMonth | wpclife-frontend/src/app/features/calendar/calendar.component.ts:328-336 | each button moves exactly one month and lands on day 1 |
| CalendarComponent.CellDayNumber | wpclife-frontend/src/app/features/calendar/calendar.component.ts:289-318 | cell k is k days after the Sunday the grid starts on |
| CalendarComponent.GridWeekday | wpclife-frontend/src/app/features/calendar/calendar.component.ts:289-318 | cell k falls on weekday k mod 7 |
| CalendarComponent.FullPrefixIsGrid | wpclife-frontend/src/app/features/calendar/calendar.component.ts:309-318 | 42 cells pushed in order are the grid |
| CalendarComponent.GridConsecutive | wpclife-frontend/src/app/features/calendar/calendar.component.ts:280-319 | the grid has 42 valid consecutive dates, in weekday columns from Sunday |
| CalendarComponent.GridLead | wpclife-frontend/src/app/features/calendar/calendar.component.ts:289-297 | the leading cells are the last days of the previous month, marked other-month and never today |
| CalendarComponent.GridMonth | wpclife-frontend/src/app/features/calendar/calendar.component.ts:299-307 | day d of the month sits in cell w + d - 1, marked today exactly when it is today |
| CalendarComponent.GridTrail | wpclife-frontend/src/app/features/calendar/calendar.component.ts:309-318 | the trailing cells are the first days of the next month, marked other-month and never today |
| CalendarComponent.GridTodayOnce | wpclife-frontend/src/app/features/calendar/calendar.component.ts:299-307 | at most one cell is today, and it is today's date in the shown month |
| CalendarComponent.DayNumberGrows | wpclife-frontend/src/app/features/calendar/calendar.component.ts:280-319 | consecutive cells never repeat a date |
| CalendarComponent.DayNumberAbove | wpclife-frontend/src/app/features/calendar/calendar.component.ts:280-319 | cell k is k - j days after cell j |
| CalendarComponent.EventsForDay | wpclife-frontend/src/app/features/calendar/calendar.component.ts:321-326 | exactly the events whose start falls on the date |
| CalendarComponent.IsoMinutes | wpclife-frontend/src/app/features/calendar/calendar.component.ts:339 | `slice(0, 16)` keeps the first 16 characters, or the whole text when shorter |
| CalendarComponent.FormAt | wpclife-frontend/src/app/features/calendar/calendar.component.ts:338-348 | a new form starts and ends at that minute, with empty title and description, type OTHER and no participants |
| CalendarComponent.Calendar.LoadEvents | wpclife-frontend/src/app/features/calendar/calendar.component.ts:274-278 | the events become the fetched ones and nothing else changes |
| CalendarComponent.Calendar.GenerateCalendarDays | wpclife-frontend/src/app/features/calendar/calendar.component.ts:280-319 | the days become the grid of the current month |
| CalendarComponent.Calendar.PushLeadDays | wpclife-frontend/src/app/features/calendar/calendar.component.ts:289-297 | the first loop pushes the leading cells |
| CalendarComponent.Calendar.PushMonthDays | wpclife-frontend/src/app/features/calendar/calendar.component.ts:299-307 | the second loop pushes the month's days |
| CalendarComponent.Calendar.PushTrailDays | wpclife-frontend/src/app/features/calendar/calendar.component.ts:309-318 | the third loop fills the grid to 42 cells |
| CalendarComponent.Calendar.PreviousMonth | wpclife-frontend/src/app/features/calendar/calendar.component.ts:328-331 | the date moves to the first of the previous month and the grid follows |
| CalendarComponent.Calendar.NextMonthClick | wpclife-frontend/src/app/features/calendar/calendar.component.ts:333-336 | the date moves to the first of the next month and the grid follows |
| CalendarComponent.Calendar.SelectDate | wpclife-frontend/src/app/features/calendar/calendar.component.ts:338-349 | the form is reset at that minute and the dialog opens |
| CalendarComponent.Calendar.CloseModal | wpclife-frontend/src/app/features/calendar/calendar.component.ts:351-354 | the dialog closes and nothing is being edited |
| CalendarComponent.Calendar.SaveEvent | wpclife-frontend/src/app/features/calendar/calendar.component.ts:356-363 | an untitled form sends nothing; otherwise the form is sent, and on success the events are reloaded and the dialog closes |
| ChoresPage.ToggledStatus | client/src/pages/Chores.tsx:59-60 | a toggle gives COMPLETED exactly when the chore was not completed, and PENDING exactly when it was |
| ChoresPage.ToggleTwice | client/src/pages/Chores.tsx:59-61 | toggling twice restores PENDING and COMPLETED chores; any other status ends as PENDING |
| ChoresPage.PendingChores | client/src/pages/Chores.tsx:70 | exactly the chores that are not COMPLETED |
| ChoresPage.CompletedChores | client/src/pages/Chores.tsx:71 | exactly the COMPLETED chores |
| ChoresPage.ListsPartitionChores | client/src/pages/Chores.tsx:70-71 | the two lists split the chores between them, each chore in exactly one |
| ChoresPage.ToggleMovesChore | client/src/pages/Chores.tsx:59-71 | a toggled chore moves to the other list |
| ChoresPage.CreateChore | client/src/pages/Chores.tsx:37-57 | refused exactly without a family or with a blank title; otherwise a PENDING chore with the form's title, points and due date, and "" sent as null |
| ChoresPage.ChildBoardRanked | client/src/pages/Chores.tsx:245-251 | the board is the children, a permutation of them, by non-increasing points |
| ChoresPage.WidgetShowsChildBoard | client/src/pages/Chores.tsx:245-251 | with a child in the family, the dashboard's leaderboard widget shows the same board |
| ChoresScreen.PointsOfText | mobile-app/src/screens/ChoresScreen.tsx:48 | `parseInt(points) \|\| 10`: the parsed number, or 10 when it does not parse or is 0, so never 0 |
| ChoresScreen.AddChore | mobile-app/src/screens/ChoresScreen.tsx:40-56 | refused exactly with a blank title; otherwise a PENDING chore due today with no time, the parsed points and "" sent as null |
| ChoresScreen.EarnedBy | mobile-app/src/screens/ChoresScreen.tsx:81 | exactly the child's COMPLETED chores |
| ChoresScreen.EarnedSnoc | mobile-app/src/screens/ChoresScreen.tsx:80-82 | one more chore adds its points (0 when missing) only when it is the child's and COMPLETED |
| ChoresScreen.EarnedNonNegative | mobile-app/src/screens/ChoresScreen.tsx:80-82 | with no negative points a child never has a negative total |
| ChoresScreen.ScreenBoardRows | mobile-app/src/screens/ChoresScreen.tsx:77-83 | one row per child, each with the total of that child's completed chores |
| ChoresScreen.ScreenBoardRanked | mobile-app/src/screens/ChoresScreen.tsx:84 | the rows come in non-increasing points |
| ChoresScreen.EveryChildRanked | mobile-app/src/screens/ChoresScreen.tsx:77-84 | every child is on the board |
| ChoresScreen.CompletedShown | mobile-app/src/screens/ChoresScreen.tsx:156 | the first five completed chores in order, or all of them when fewer |
| Registration.MemberEmails | server/routes.ts:329-337 | the collected member emails are never more than the members |
| Registration.NoneRegisteredCons | server/routes.ts:340-343 | no member is registered exactly when the first is not and none of the rest is |
| Registration.NoWeakPasswordCons | server/routes.ts:347-349 | no member has a weak password exactly when the first has not and none of the rest has |
| Registration.MemberEmailsCons | server/routes.ts:331-337 | a member with an email adds it, lower-cased, before the rest |
| Registration.TailAcceptable | server/routes.ts:330-350 | a first member that passes every check leaves the verdict to the rest, its email now seen |
| Registration.EmailAtIndex | server/routes.ts:331-337 | every member email that is given is collected, lower-cased |
| RegisterPage.ValidateStep1 | client/src/pages/Register.tsx:58-97 | the first failing check gives its message, in the page's order: a missing field, a password under 8 characters, a confirmation mismatch; the step passes exactly when all hold and the email matches the pattern |
| RegisterPage.EmailExamples | client/src/pages/Register.tsx:86 | the email pattern accepts ann@example.com and rejects ann@example and ann@@example.com |
| RegisterPage.AddMember | client/src/pages/Register.tsx:44-46 | one blank adult member is appended and the others stay |
| RegisterPage.RemoveMember | client/src/pages/Register.tsx:48-50 | the member at the index is dropped and the others keep their order; an index outside the list changes nothing |
| RegisterPage.RemoveAdded | client/src/pages/Register.tsx:44-50 | removing the member just added restores the list |
| RegisterPage.SetField | client/src/pages/Register.tsx:54 | the chosen field takes the value and every other field stays |
| RegisterPage.UpdateMember | client/src/pages/Register.tsx:52-56 | only the member at the index changes, and only in that field |
| RegisterPage.MemberData | client/src/pages/Register.tsx:113-122 | one sent member per named member; a child never sends a password, and a PIN is sent only by a child and only when non-empty |
| RegisterPage.NamedMemberSent | client/src/pages/Register.tsx:113-122 | every named member is sent |
| RegisterPage.SentMemberNamed | client/src/pages/Register.tsx:113-122 | every sent member comes from a named member |
| RegisterPage.CheckMembersMessages | server/routes.ts:329-350 | every member error the server can return starts with the "E" of the email messages or the "Password f" of the password message |
| RegisterPage.GuardianChecksPass | server/routes.ts:314-320 | a request with all guardian fields and a password of 8 or more never fails the first two server checks |
| RegisterPage.Step1PassesServerChecks | client/src/pages/Register.tsx:58-130 | a form that passes the first step is never refused by the server for a missing field or short password |
| RegisterPage.AfterNext | client/src/pages/Register.tsx:253 | "next" moves to the members step exactly when the first step validates |
| RegisterPage.AfterSubmit | client/src/pages/Register.tsx:110-150 | the PIN step follows exactly when the server returns kid PINs; a thrown error stays on the members step; otherwise home |
| RegisterScreen.HandleRegister | mobile-app/src/screens/RegisterScreen.tsx:30-61 | the first failing check gives its alert, in the screen's order: a missing field, a mismatch, a password under 6 characters; otherwise the details are sent with no members |
| RegisterScreen.ShortPasswordReachesServer | mobile-app/src/screens/RegisterScreen.tsx:41-53 | a password of 6 or 7 characters passes the screen but is refused by the server as too short |
| RegisterScreen.ScreenWeakerThanWizard | mobile-app/src/screens/RegisterScreen.tsx:30-53 | a form the web wizard accepts is also sent by the screen |
| ResetPassword.EmailNext | client/src/pages/ResetPassword.tsx:43-65 | the questions step follows exactly when an email was given and the lookup found the account with both questions, and shows those questions; the setup step follows exactly when the lookup otherwise says "no_security_questions"; an empty email or a failed call leaves a toast |
| ResetPassword.SetupCheck | client/src/pages/ResetPassword.tsx:67-80 | the first missing piece gives its message: the current password, then any question or answer; the form passes exactly when everything is given and the two questions differ |
| ResetPassword.ResetCheck | client/src/pages/ResetPassword.tsx:99-112 | a missing answer is reported first, then a new password under 8 characters; the reset goes ahead exactly when both answers are given, the password has 8 or more characters and matches its confirmation |
| ResetPassword.AvailableQ2 | client/src/pages/ResetPassword.tsx:150 | the second list holds every stock question except the first choice, and nothing else |
| ResetPassword.ChosenFromListsDiffer | client/src/pages/ResetPassword.tsx:150-260 | two questions picked from the page's lists, with all answers given, always pass the setup check |
| ResetPassword.QuestionsAreWorded | client/src/pages/ResetPassword.tsx:12-23 | no stock question is empty, so a picked question counts as given |
| ResetPassword.ResetFlow.SubmitEmail | client/src/pages/ResetPassword.tsx:43-65 | the flow moves as EmailNext says, shows its toast when it stays, and keeps every form field |
| ResetPassword.ResetFlow.SubmitSetup | client/src/pages/ResetPassword.tsx:67-97 | a failed check stays with its toast; a passing form reaches the saved step exactly when the call succeeds, otherwise stays with a toast; no field changes |
| ResetPassword.ResetFlow.SubmitReset | client/src/pages/ResetPassword.tsx:99-122 | a failed check stays with its toast; a passing form reaches the success step exactly when the call succeeds, otherwise stays with a toast; no field changes |
| ResetPassword.ResetFlow.BackFromSetup | client/src/pages/ResetPassword.tsx:270 | back to the email step with the setup form cleared and everything else kept |
| ResetPassword.ResetFlow.BackFromQuestions | client/src/pages/ResetPassword.tsx:367 | back to the email step with the answers and both new-password boxes cleared and everything else kept |
| SettingsPage.Kids | client/src/pages/Settings.tsx:40 | exactly the child members are listed as kids |
| SettingsPage.Guardians | client/src/pages/Settings.tsx:41 | exactly the other members are listed as guardians |
| SettingsPage.ListsPartitionMembers | client/src/pages/Settings.tsx:40-41 | every member appears once, in one of the two lists |
| SettingsPage.GuardianListed | client/src/pages/Settings.tsx:38-41 | a signed-in guardian is among the listed guardians |
| SettingsPage.PinUpdate | client/src/pages/Settings.tsx:43-52 | a PIN is sent exactly when it is four digits, and then unchanged; anything else is refused with the invalid-PIN message |
| SettingsPage.PinField | client/src/pages/Settings.tsx:318-319 | the PIN box holds at most four characters, all digits |
| SettingsPage.PinSaveMatchesCheck | client/src/pages/Settings.tsx:318-340 | for text typed into the box, the save button is enabled exactly when the handler accepts the PIN, which is exactly when at least four digits were typed |
| SettingsPage.PinButtonAloneTooWeak | client/src/pages/Settings.tsx:340 | the button's length test alone would let a non-digit PIN through to the handler, which refuses it |
| SettingsPage.PointsUpdate | client/src/pages/Settings.tsx:73-84 | points are sent exactly when the text parses as an integer of 0 or more, and then as that integer; otherwise refused with the invalid-points message |
| SettingsPage.PointsOfTypedNumber | client/src/pages/Settings.tsx:74-86 | a typed number is sent as itself, and its negation is refused |
| SettingsPage.EmptyPointsRefused | client/src/pages/Settings.tsx:74-75 | an empty points box is refused |
| SettingsPage.MinusTen | client/src/pages/Settings.tsx:252 | the "-10" button writes the parsed value less ten, floored at zero, treating an empty box as 0, and writes "NaN" when the text does not parse |
| SettingsPage.MinusTenClamps | client/src/pages/Settings.tsx:252 | from a number n the button gives n - 10 or 0, from an empty box 0, and what it writes is accepted as that value |
| SettingsPage.ResetToZeroAccepted | client/src/pages/Settings.tsx:244 | the "reset" button's 0 is accepted |
| RemindersPage.ToggleTarget | client/src/pages/Reminders.tsx:34-37 | the member becomes selected exactly when it was not, no other member changes, and a newly selected member goes to the end |
| RemindersPage.ToggleKeepsDistinct | client/src/pages/Reminders.tsx:34-37 | a selection without repeats keeps none after a toggle |
| RemindersPage.ToggleTwice | client/src/pages/Reminders.tsx:34-37 | toggling twice selects the same members, and restores the list exactly when the member was not selected |
| RemindersPage.StartText | client/src/pages/Reminders.tsx:59-61 | the start is the date at the chosen time, or at 09:00 when no time is chosen |
| RemindersPage.Submit | client/src/pages/Reminders.tsx:40-72 | a blank title, then a missing date, then an empty selection is refused with its message; otherwise one trimmed Custom reminder on a one-off schedule is sent, active, for the selected members |
| RemindersPage.SubmittedTitleTrimmed | client/src/pages/Reminders.tsx:64 | a sent title is non-empty and neither starts nor ends with white space |
| RemindersPage.ShownReminders | client/src/pages/Reminders.tsx:96 | exactly the reminders not marked inactive are shown |
| RemindersPage.SortedRemindersAreShown | client/src/pages/Reminders.tsx:96-100 | the sorted list is a permutation of the shown reminders |
| RemindersPage.SortedRemindersAscending | client/src/pages/Reminders.tsx:97-100 | when every shown start parses, the list is in ascending start order |
| Text.Trim | server/routes.ts:278 | a trimmed text neither starts nor ends with white space |
| Text.TrimIsSlice | server/routes.ts:278 | a trimmed text is the piece of the input that follows its leading white space |
| Text.TrimCutsOnlyTrailing | server/routes.ts:278 | everything cut after the kept piece is white space |
| Text.TrimIdempotent | server/routes.ts:289 | trimming a trimmed text changes nothing |
| Text.LowerIdempotent | server/routes.ts:329-332 | lower-casing a lower-cased text changes nothing |
| Text.LowerAppend | server/routes.ts:329-332 | lower-casing works character by character, so it distributes over concatenation |
| Text.Split | server/routes.ts:190 | splitting gives at least one piece and no piece holds the separator |
| JsNum.ParseInt | client/src/pages/Settings.tsx:74 | parseInt yields a value only when digits follow the leading white space and optional sign |
| JsNum.ParseIntOfRendering | client/src/pages/Settings.tsx:211 | a number's decimal rendering, followed by any text that does not continue it, parses back to that number |
| JsNum.ParseIntNegative | client/src/pages/Settings.tsx:75 | a minus sign negates what the digits parse to |
| JsNum.ToInt32 | wpclife-backend/src/main/java/com/wpclife/service/AIScheduleService.java:258 | a Java int holds the value reduced modulo 2^32 into the signed 32-bit range |
| JsNum.ToInt32Identity | wpclife-backend/src/main/java/com/wpclife/service/AIScheduleService.java:258 | a value already in the 32-bit range is kept |
| Forms.SanitizePin | client/src/pages/Register.tsx:335 | a PIN box keeps the first four digits typed, in order, and drops every other character |
| Forms.SanitizePinIdempotent | client/src/pages/Register.tsx:335 | sanitising a sanitised PIN changes nothing, and a PIN of at most four digits is kept as typed |
| Forms.BlankIffSpaces | client/src/pages/Chores.tsx:38 | a text is blank exactly when all of it is white space |

## Left out

### External services and runtime

- The outbound language-model call (`callOpenAI`, the `fetch` to the chat endpoint) and the prompt text are left out. The call is a parameter: the reply, or none when the call threw.
- JSON decoding (Jackson, `JSON.parse`) is a parameter from text to an optional decoded value. JSON numbers are integers only, because the code reads only whole numbers. Fractions are not modelled.
- Date and time libraries are not modelled. This covers `LocalDateTime.parse`, `new Date(...)`, `toISOString`, `toLocaleString`, `date-fns` and time-zone conversion. They are parameters or plain integers: milliseconds, seconds since the local epoch, or day numbers. Month and weekday names are not modelled.
- Persistence is an in-memory collection of documents. `MongoStore` keeps each document once under its id, in insertion order. The storage layer of the Express server is a list of requests or a `rejects` parameter that says which documents are refused. Generated ids are a parameter. `createdAt` and `updatedAt` timestamps are left out.
- Security and sessions are not modelled: password hashing, tokens, sessions, JWT and Spring Security. These are framework and cryptography code.
- E-mail sending is not modelled, because it is outbound I/O.
- The native notification plugin calls (`LocalNotifications.schedule`, `cancel`, `getPending`) are not modelled. A scheduler's result is the list it would hand to the plugin and the count it returns.
- `scheduleAllNotifications`, `getPendingNotificationCount`, `sendTestNotification` and the notification listeners are left out, because they only call the plugin.
- Captcha and PIN generation use `Math.random`, and are left out.
- Speech recognition, `setTimeout` auto-clears, the Angular polling timer and React Query refetching and invalidation are left out. They are callbacks and concurrency.
- Toast texts are kept where a check produces them. Error texts taken from thrown exceptions are not modelled; they become "the call failed".
- `isLoading` and `isProcessing` spinners are modelled only where they gate an action (the smart-input box).
- Floating-point percentages are integers by floor division, or are not modelled.
- Case mapping (`toLowerCase`, `toUpperCase`) is exact for ASCII and a few special code points. It leaves other characters unchanged, which is weaker than full Unicode casing.
- `localeCompare` is ordered by code points.
- Strings are sequences of code points. The notification hash converts them to UTF-16 code units, as `charCodeAt` reads them.
- JavaScript objects with integer-like keys are listed by Object.entries in insertion order here. Their numeric-first order is not modelled.

### Operations not modelled

- In the Express schedule handler, `storage.getFamilies()` (server/routes.ts:1557) and `storage.getUsersByFamily()` (server/routes.ts:1568, inside the item loop) always succeed in the model: the families and the users are parameters. In the source a rejected lookup lands in the catch-all part-way through the loop, and the documents already created stay.
- Only some Java exceptions are modelled: the failed casts, decoding failures and the store refusing a document. Others, such as errors inside the repository, are not.
- On the kid-login page, focus moves between the PIN boxes and Backspace handling are not modelled, because they are DOM focus effects.
- In the settings page, the open and closed state of the PIN and points dialogs is not modelled. Their inputs, checks and buttons are modelled.
- A Mongo query's results are in insertion order. Natural order is not guaranteed by the database, and no order is claimed beyond that.
- Bean Validation is modelled as the `@NotBlank` test and a bare "bad request". Its error bodies are not modelled.
- A grocery request whose `category` is an explicit JSON `null` is not modelled. An absent category keeps its default of OTHER.

- The plain repository pass-throughs are not modelled, because they only return what the repository returns. They are:
  - `getGroceries` and `deleteItem` in the grocery controller;
  - `getChores` and `deleteChore` in the chore controller;
  - `getMedications`, `getMedicationLogs` and `deleteMedication` in the medication controller.
- Rendering, icons, colours and layout are not modelled. Where a page's text is decided by a rule, such as labels or messages, it is modelled.

### Requirements stronger than the source

- RegisterPage.UpdateMember: requires an index inside the list. In JavaScript, writing past the end of the array makes a sparse array, and that case is not modelled.
- The Express schedule handler is modelled for a request text that is a string or absent. A non-string truthy text makes `trim` throw outside the handler's `try`, and that case is not modelled.

### Weaker contracts

- RemindersPage.SortedRemindersAscending: requires every shown start time to parse. With a NaN key the JavaScript comparator is not a consistent order, and the engine's result is then unspecified.
- AIScheduleService.Repository.Save: a refusal is a fixed function of the document (`rejects`), so an identical document is refused at every attempt. A transient failure, refused once and accepted on a later attempt, is not modelled.
- AiScheduleRoute.Storage.Create: a refusal is a fixed function of the document, as for the Java store. A transient failure followed by a success for an identical document is not modelled.
- GroceryPage.ItemsByStore: a store key is treated as an own property even when it names an `Object.prototype` member (`constructor`, `toString`, `__proto__` and the like). In the source `acc[store]` then reads the inherited value and `.push` throws a TypeError. The contract covers only store names that are not `Object.prototype` names.
- GroceryItems.CountInto: the same limit on store names. In the source `storeCounts["constructor"] || 0` is the inherited function, so the count becomes a string, and an assignment to `__proto__` is ignored.
- GroceryItems.CountStores: covers only store names that are not `Object.prototype` names, for the reason given under `GroceryItems.CountInto`.
- GroceryItems.FrequentStoresOf: covers only store names that are not `Object.prototype` names, for the reason given under `GroceryItems.CountInto`.
- GroceryScreen.MirrorsOffer: an item name is treated as an own key even when it names an `Object.prototype` member. In the source `itemData[name]` is then the inherited value: `!itemData[name]` is false and `.count` is undefined, so such an item is never recorded and never suggested. The model records it.
- GroceryScreen.BestInto: covers only item names that are not `Object.prototype` names, for the reason given under `GroceryScreen.MirrorsOffer`.
- GroceryScreen.FrequentItemsOf: covers only item names that are not `Object.prototype` names, for the reason given under `GroceryScreen.MirrorsOffer`.
- Records.MirrorsPut: a JavaScript object is modelled as a map with no prototype. Keys that name `Object.prototype` members, where a read finds an inherited value and an assignment to `__proto__` is ignored, are outside the contract.
- Records.MirroredEntries: the same limit as `Records.MirrorsPut`. `Object.entries` lists own keys only, and the model treats every key as own.
- JsNum.StringToNumber: only white space, a sign and decimal digits are accepted. Fractions, exponents, `Infinity` and `0x`/`0o`/`0b` forms give None here, whereas `Number` gives a value.
- Notifications.NotificationTime: through `JsNum.StringToNumber`, a time such as "08.5:00" is an Invalid Date in the model. In the source `Number` gives 8.5 and `setHours` truncates it to hour 8.
- Notifications.ScheduleMedications: a medication's schedule is taken as already decoded. A schedule stored as a string is passed to `JSON.parse` in the source, and a malformed one throws out of the scheduler; neither is modelled.
- Notifications.MedicationNoticesShape: schedules are taken as already decoded, as for `Notifications.ScheduleMedications`.
- Registration.Validate: lengths are counted in code points. JavaScript's `.length` counts UTF-16 code units, which differs for characters outside the Basic Multilingual Plane.
- RegisterPage.ValidateStep1: lengths are counted in code points, not UTF-16 code units, as for `Registration.Validate`.
- RegisterScreen.HandleRegister: lengths are counted in code points, not UTF-16 code units, as for `Registration.Validate`.
- ResetPassword.ResetCheck: lengths are counted in code points, not UTF-16 code units, as for `Registration.Validate`.
- KidLogin.SubmitCheck: lengths are counted in code points, not UTF-16 code units, as for `Registration.Validate`.

/**
 * What the web pages' add forms hold, the tests their handlers start
 * with, and the request bodies they send.
 */
module Forms {
  import opened Wrappers
  import opened Text
  import opened JsNum
  import opened Seqs

  /** A handler either stops with the message its toast shows (or silently,
      with an empty message) or sends a request. */
  datatype Submission<T> = Rejected(reason: string) | Accepted(value: T)

  /** `!s.trim()`: nothing but white space. */
  predicate Blank(s: string)
  {
    JsTrim(s) == []
  }

  /** Text is blank exactly when every character of it is white space. */
  lemma BlankIffSpaces(s: string)
    ensures Blank(s) <==> AllSatisfy(s, IsJsSpace)
  {
    var i := LeadCount(s, IsJsSpace);
    var a := s[i..];
    if Blank(s) {
      assert TrailStart(a, IsJsSpace) == 0;
      assert a == [];
    }
  }

  /** `family?.id` is present and not empty. */
  predicate HasFamily(familyId: Option<string>)
  {
    familyId.Some? && familyId.value != []
  }

  /** `s || null`: the empty text is absent. */
  function OrNull(s: string): (r: Option<string>)
    ensures r.None? <==> s == []
    ensures r.Some? ==> r.value == s
  {
    if s == [] then None else Some(s)
  }

  /** `s || d`: the empty text gives the default. */
  function OrDefault(s: string, d: string): (r: string)
    ensures s == [] ==> r == d
    ensures s != [] ==> r == s
  {
    if s == [] then d else s
  }

  /** A PIN field's `replace(/\D/g, '').slice(0, 4)`: the first four digits typed. */
  function SanitizePin(s: string): (r: string)
    ensures |r| <= 4 && AllDigits(r)
    ensures |r| <= |Filter(s, IsDigit)| && r == Filter(s, IsDigit)[..|r|]
    ensures |Filter(s, IsDigit)| >= 4 ==> |r| == 4
  {
    var digits := Filter(s, IsDigit);
    if |digits| <= 4 then digits else digits[..4]
  }

  /** A sanitised PIN is left as it is by sanitising it again, and a PIN of
      at most four digits is not changed at all. */
  lemma SanitizePinIdempotent(s: string)
    ensures SanitizePin(SanitizePin(s)) == SanitizePin(s)
    ensures AllDigits(s) && |s| <= 4 ==> SanitizePin(s) == s
  {
    var r := SanitizePin(s);
    FilterAll(r, IsDigit);
    if AllDigits(s) {
      FilterAll(s, IsDigit);
    }
  }

  /** The add forms; an untouched field is "". */
  datatype ReminderForm = ReminderForm(title: string, description: string, date: string, time: string)
  datatype ChoreForm = ChoreForm(title: string, assignedTo: string, points: int, dueDate: string, dueTime: string)
  datatype MedicineForm = MedicineForm(name: string, morning: bool, afternoon: bool, evening: bool,
                                       quantity: string, startDate: string, endDate: string, assignedTo: string)
  datatype GroceryForm = GroceryForm(name: string, quantity: string)

  /** The request bodies. A reminder's start is the local date-time text
      handed to `new Date`; a member the page does not send is None. */
  datatype ReminderRequest = ReminderRequest(title: string, description: Option<string>, kind: string,
                                             startTime: string, endTime: Option<string>, isActive: Option<bool>)
  datatype ChoreRequest = ChoreRequest(title: string, assignedTo: Option<string>, points: int, dueDate: string,
                                       dueTime: Option<string>, status: string)
  datatype MedicineRequest = MedicineRequest(name: string, times: seq<string>, inventory: int,
                                             startDate: Option<string>, endDate: Option<string>,
                                             assignedTo: Option<string>, active: Option<bool>)
  datatype GroceryRequest = GroceryRequest(name: string, quantity: Option<string>, status: string)
}

/**
 * The web registration wizard: the guardian's details (step 1), the list
 * of extra family members (step 2), the request it sends, and the kid PIN
 * page (step 3) shown when the server generated PINs.
 */
module RegisterPage {
  import opened Wrappers
  import opened Text
  import opened JsNum
  import opened Seqs
  import opened Forms
  import Registration

  // ---------------------------------------------------------------------
  // Step 1
  // ---------------------------------------------------------------------

  datatype DetailsForm = DetailsForm(familyName: string, guardianName: string, guardianEmail: string,
                                     password: string, confirmPassword: string)

  const MsgMissing: string := "Please fill in all required fields."
  const MsgWeak: string := "Password must be at least 8 characters long."
  const MsgMismatch: string := "Passwords do not match."
  const MsgBadEmail: string := "Please enter a valid email address."

  /** `/^[^\s@]+@[^\s@]+\.[^\s@]+$/`: one `@` with text before it, and after
      it a `.` with text on both sides; no white space anywhere. */
  predicate EmailMatches(s: string)
  {
    exists at, dot :: 0 < at && at + 1 < dot < |s| - 1 && s[at] == '@' && s[dot] == '.'
                      && forall k :: 0 <= k < |s| && k != at ==> !IsJsSpace(s[k]) && s[k] != '@'
  }

  /** validateStep1: the first failing check's message, None when all pass. */
  function ValidateStep1(form: DetailsForm): (r: Option<string>)
    ensures r == Some(MsgMissing) <==>
              form.familyName == [] || form.guardianName == [] || form.guardianEmail == [] || form.password == []
    ensures r == Some(MsgWeak) <==>
              form.familyName != [] && form.guardianName != [] && form.guardianEmail != [] && form.password != []
              && |form.password| < 8
    ensures r == Some(MsgMismatch) <==>
              form.familyName != [] && form.guardianName != [] && form.guardianEmail != []
              && |form.password| >= 8 && form.password != form.confirmPassword
    ensures r.None? <==>
              form.familyName != [] && form.guardianName != [] && |form.password| >= 8
              && form.password == form.confirmPassword && EmailMatches(form.guardianEmail)
  {
    if form.familyName == [] || form.guardianName == [] || form.guardianEmail == [] || form.password == [] then
      Some(MsgMissing)
    else if |form.password| < 8 then Some(MsgWeak)
    else if form.password != form.confirmPassword then Some(MsgMismatch)
    else if !EmailMatches(form.guardianEmail) then Some(MsgBadEmail)
    else None
  }

  /** Not every address the server would take passes the email check. */
  lemma EmailExamples()
    ensures EmailMatches("ann@example.com")
    ensures !EmailMatches("ann@example")
    ensures !EmailMatches("ann@@example.com")
  {
    assert "ann@example.com"[3] == '@' && "ann@example.com"[11] == '.';
    assert forall k :: 0 <= k < |"ann@example"| && "ann@example"[k] == '.' ==> false;
    var s := "ann@@example.com";
    assert s[3] == '@' && s[4] == '@';
  }

  // ---------------------------------------------------------------------
  // Step 2: the member list
  // ---------------------------------------------------------------------

  datatype FormMember = FormMember(name: string, email: string, password: string, age: string,
                                   isChild: bool, pin: string)

  const BlankMember := FormMember([], [], [], [], false, [])

  /** addMember: one blank guardian member more, at the end. */
  function AddMember(members: seq<FormMember>): (r: seq<FormMember>)
    ensures |r| == |members| + 1 && r[..|members|] == members
    ensures r[|members|] == BlankMember && !r[|members|].isChild
  {
    members + [BlankMember]
  }

  /** removeMember: `filter((_, i) => i !== index)`; an index outside the
      list removes nothing. */
  function RemoveMember(members: seq<FormMember>, index: int): (r: seq<FormMember>)
    ensures 0 <= index < |members| ==> |r| == |members| - 1
    ensures 0 <= index < |members| ==>
              (forall i :: 0 <= i < index ==> r[i] == members[i])
              && (forall i :: index <= i < |r| ==> r[i] == members[i + 1])
    ensures !(0 <= index < |members|) ==> r == members
  {
    if 0 <= index < |members| then members[..index] + members[index + 1..] else members
  }

  /** Removing the member just added gives the list back. */
  lemma RemoveAdded(members: seq<FormMember>)
    ensures RemoveMember(AddMember(members), |members|) == members
  {
  }

  datatype Field = NameField | EmailField | PasswordField | AgeField | IsChildField | PinField
  datatype FieldValue = Text(s: string) | Flag(b: bool)

  /** What a member holds in a field. */
  function Get(m: FormMember, f: Field): FieldValue
  {
    match f
    case NameField => Text(m.name)
    case EmailField => Text(m.email)
    case PasswordField => Text(m.password)
    case AgeField => Text(m.age)
    case IsChildField => Flag(m.isChild)
    case PinField => Text(m.pin)
  }

  /** A value of the field's own kind. */
  predicate Fits(f: Field, v: FieldValue)
  {
    if f == IsChildField then v.Flag? else v.Text?
  }

  /** `{ ...m, [field]: value }`. */
  function SetField(m: FormMember, f: Field, v: FieldValue): (r: FormMember)
    requires Fits(f, v)
    ensures Get(r, f) == v
    ensures forall g :: g != f ==> Get(r, g) == Get(m, g)
  {
    match f
    case NameField => m.(name := v.s)
    case EmailField => m.(email := v.s)
    case PasswordField => m.(password := v.s)
    case AgeField => m.(age := v.s)
    case IsChildField => m.(isChild := v.b)
    case PinField => m.(pin := v.s)
  }

  /** updateMember: a copy of the list with one slot written. */
  method UpdateMember(members: seq<FormMember>, index: nat, f: Field, v: FieldValue) returns (updated: seq<FormMember>)
    requires index < |members| && Fits(f, v)
    ensures |updated| == |members|
    ensures forall i :: 0 <= i < |members| && i != index ==> updated[i] == members[i]
    ensures Get(updated[index], f) == v
    ensures forall g :: g != f ==> Get(updated[index], g) == Get(members[index], g)
  {
    var copy := new FormMember[|members|](i requires 0 <= i < |members| => members[i]);
    copy[index] := SetField(copy[index], f, v);
    updated := copy[..];
  }

  // ---------------------------------------------------------------------
  // handleSubmit
  // ---------------------------------------------------------------------

  /** A member of the request: absent fields are None; the age is None when
      not given and `Some(None)` when `parseInt` gives NaN. */
  datatype SentMember = SentMember(name: string, email: Option<string>, password: Option<string>,
                                   age: Option<Option<int>>, isChild: bool, pin: Option<string>)

  function SentMemberOf(m: FormMember): SentMember
  {
    SentMember(m.name, OrNull(m.email), if m.isChild then None else OrNull(m.password),
               if m.age == [] then None else Some(ParseInt(m.age)), m.isChild,
               if m.isChild && m.pin != [] then Some(m.pin) else None)
  }

  predicate Named(m: FormMember) { !Blank(m.name) }

  /** memberData: the members with a name, in order. */
  function MemberData(members: seq<FormMember>): (r: seq<SentMember>)
    ensures |r| == |Filter(members, Named)|
    ensures forall i :: 0 <= i < |r| ==> !Blank(r[i].name)
    ensures forall i :: 0 <= i < |r| && r[i].isChild ==> r[i].password.None?
    ensures forall i :: 0 <= i < |r| && r[i].pin.Some? ==> r[i].isChild && r[i].pin.value != []
  {
    Map(Filter(members, Named), SentMemberOf)
  }

  /** A member with a name is sent, with the name as typed. */
  lemma NamedMemberSent(members: seq<FormMember>, i: nat)
    requires i < |members| && Named(members[i])
    ensures SentMemberOf(members[i]) in MemberData(members)
  {
    var named := Filter(members, Named);
    var j :| 0 <= j < |named| && named[j] == members[i];
    assert MemberData(members)[j] == SentMemberOf(members[i]);
  }

  /** Every member sent is a named member of the list. */
  lemma SentMemberNamed(members: seq<FormMember>, k: nat)
    requires k < |MemberData(members)|
    ensures exists j :: 0 <= j < |members| && Named(members[j]) && MemberData(members)[k] == SentMemberOf(members[j])
  {
    var named := Filter(members, Named);
    var j :| 0 <= j < |members| && members[j] == named[k];
    assert MemberData(members)[k] == SentMemberOf(members[j]);
  }

  /** What the server's validation reads of the request. */
  function ServerRequest(form: DetailsForm, members: seq<FormMember>): Registration.RegisterRequest
  {
    Registration.RegisterRequest(Some(form.familyName), Some(form.guardianName), Some(form.guardianEmail),
                                 Some(form.password),
                                 Map(MemberData(members), (m: SentMember) =>
                                   Registration.Member(m.name, m.email, m.password, m.isChild)))
  }

  /** The member checks answer with one of their own three messages. */
  lemma {:induction false} CheckMembersMessages(ms: seq<Registration.Member>, seen: seq<string>,
                                                registered: string -> bool)
    ensures var e := Registration.CheckMembers(ms, seen, registered);
            e.None? || (|e.value| > 0 && e.value[0] == 'E') || (|e.value| > 9 && e.value[..9] == "Password " && e.value[9] == 'f')
    decreases |ms|
  {
    if ms != [] {
      var m := ms[0];
      if Registration.Given(m.email) && Lower(m.email.value) in seen {
        assert Registration.MsgUsedTwice(m.email.value)[0] == 'E';
      } else if Registration.Given(m.email) && registered(m.email.value) {
        assert Registration.MsgRegistered(m.email.value)[0] == 'E';
      } else if Registration.WeakPassword(m) {
        var e := Registration.MsgMemberPassword(m.name);
        assert e[..9] == "Password " && e[9] == 'f';
      } else {
        CheckMembersMessages(ms[1..], seen + (if Registration.Given(m.email) then [Lower(m.email.value)] else []),
                             registered);
      }
    }
  }

  /** A request with all four guardian fields and a long enough password
      gets past the server's first two checks. */
  lemma GuardianChecksPass(r: Registration.RegisterRequest, registered: string -> bool)
    requires Registration.Given(r.familyName) && Registration.Given(r.guardianName)
    requires Registration.Given(r.guardianEmail) && Registration.Given(r.password)
    requires |r.password.value| >= Registration.MinPasswordLength
    ensures Registration.Validate(r, registered) != Some(Registration.MsgAllFields)
    ensures Registration.Validate(r, registered) != Some(Registration.MsgPasswordShort)
  {
    if !registered(r.guardianEmail.value) {
      CheckMembersMessages(r.members, [Lower(r.guardianEmail.value)], registered);
    }
    assert Registration.MsgAllFields[0] == 'A';
    assert Registration.MsgPasswordShort[9] == 'm';
  }

  /** A request sent after step 1 passed never fails the server's field or
      guardian password checks. */
  lemma Step1PassesServerChecks(form: DetailsForm, members: seq<FormMember>, registered: string -> bool)
    requires ValidateStep1(form).None?
    ensures Registration.Validate(ServerRequest(form, members), registered) != Some(Registration.MsgAllFields)
    ensures Registration.Validate(ServerRequest(form, members), registered) != Some(Registration.MsgPasswordShort)
  {
    var email := form.guardianEmail;
    assert email != [] by {
      var at, dot :| 0 < at && at + 1 < dot < |email| - 1 && email[at] == '@' && email[dot] == '.'
                     && forall k :: 0 <= k < |email| && k != at ==> !IsJsSpace(email[k]) && email[k] != '@';
    }
    GuardianChecksPass(ServerRequest(form, members), registered);
  }

  // ---------------------------------------------------------------------
  // The steps
  // ---------------------------------------------------------------------

  datatype Stage = DetailsStep | MembersStep | PinsStep | Home

  /** A kid's generated PIN as the server returns it. */
  datatype KidPin = KidPin(name: string, pin: string)

  /** How the register call ended: it threw, or answered with maybe some PINs. */
  datatype Outcome = Threw | Answered(kidPins: Option<seq<KidPin>>)

  /** "Next" on step 1. */
  function AfterNext(form: DetailsForm): (r: Stage)
    ensures r == MembersStep <==> ValidateStep1(form).None?
    ensures r != MembersStep ==> r == DetailsStep
  {
    if ValidateStep1(form).None? then MembersStep else DetailsStep
  }

  /** After handleSubmit: the PIN page only with PINs to show; home after
      any other answer; step 2 again when the call threw. */
  function AfterSubmit(outcome: Outcome): (r: Stage)
    ensures r == PinsStep <==> outcome.Answered? && outcome.kidPins.Some? && |outcome.kidPins.value| > 0
    ensures r == MembersStep <==> outcome.Threw?
    ensures r == PinsStep || r == MembersStep || r == Home
  {
    match outcome
    case Threw => MembersStep
    case Answered(pins) => if pins.Some? && |pins.value| > 0 then PinsStep else Home
  }
}

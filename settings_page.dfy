/**
 * The web family settings page: the guardians and kids lists, the PIN
 * dialog (its input filter, its Save button and its check) and the points
 * dialog (its check and its "-10" and "Reset to 0" buttons).
 */
module SettingsPage {
  import opened Wrappers
  import opened Seqs
  import opened JsNum
  import opened Forms
  import opened TodaySchedule
  import opened DashboardWidgets

  const MsgInvalidPin: string := "PIN must be exactly 4 digits"
  const MsgInvalidPoints: string := "Points must be 0 or greater"

  // ---------------------------------------------------------------------
  // The two lists
  // ---------------------------------------------------------------------

  predicate IsGuardianMember(m: Member) { !m.isChild }

  function Kids(members: seq<Member>): (r: seq<Member>)
    ensures forall i :: 0 <= i < |r| ==> r[i] in members && r[i].isChild
    ensures forall i :: 0 <= i < |members| && members[i].isChild ==> members[i] in r
  {
    Filter(members, IsChild)
  }

  function Guardians(members: seq<Member>): (r: seq<Member>)
    ensures forall i :: 0 <= i < |r| ==> r[i] in members && !r[i].isChild
    ensures forall i :: 0 <= i < |members| && !members[i].isChild ==> members[i] in r
  {
    Filter(members, IsGuardianMember)
  }

  /** Every member is listed once, as a kid or as a guardian. */
  lemma ListsPartitionMembers(members: seq<Member>)
    ensures multiset(Kids(members)) + multiset(Guardians(members)) == multiset(members)
    ensures |Kids(members)| + |Guardians(members)| == |members|
  {
    FilterPartition(members, IsChild, IsGuardianMember);
  }

  /** `currentUser && !currentUser.isChild`: the signed-in user is found
      among the members and is not a child. */
  predicate IsGuardian(members: seq<Member>, userId: Option<string>)
  {
    userId.Some? && FindMember(members, userId.value).Some? && !FindMember(members, userId.value).value.isChild
  }

  /** A guardian's own entry is in the guardians list. */
  lemma GuardianListed(members: seq<Member>, userId: Option<string>)
    requires IsGuardian(members, userId)
    ensures exists i :: 0 <= i < |Guardians(members)| && Guardians(members)[i].id == userId.value
  {
    var m := FindMember(members, userId.value).value;
    var i :| 0 <= i < |members| && members[i] == m;
    var g := Guardians(members);
    var j :| 0 <= j < |g| && g[j] == m;
  }

  // ---------------------------------------------------------------------
  // The PIN dialog
  // ---------------------------------------------------------------------

  /** `/^\d{4}$/`: exactly four ASCII digits. */
  predicate PinPattern(pin: string) { |pin| == 4 && AllDigits(pin) }

  /** handleUpdatePin's check: the PIN sent, or the message. */
  function PinUpdate(newPin: string): (r: Submission<string>)
    ensures r.Accepted? <==> |newPin| == 4 && forall k :: 0 <= k < 4 ==> '0' <= newPin[k] <= '9'
    ensures r.Accepted? ==> r.value == newPin
    ensures r.Rejected? ==> r.reason == MsgInvalidPin
  {
    if PinPattern(newPin) then Accepted(newPin) else Rejected(MsgInvalidPin)
  }

  /** What the PIN field holds after typing `typed`. */
  function PinField(typed: string): (r: string)
    ensures |r| <= 4 && AllDigits(r)
  {
    SanitizePin(typed)
  }

  /** Save is enabled when the field holds four characters. */
  predicate PinSaveEnabled(pin: string) { |pin| == 4 }

  /** On what the field can hold, Save is enabled exactly when the check
      passes, and that is exactly when at least four digits were typed. */
  lemma PinSaveMatchesCheck(typed: string)
    ensures PinSaveEnabled(PinField(typed)) <==> PinUpdate(PinField(typed)).Accepted?
    ensures PinUpdate(PinField(typed)).Accepted? <==> |Filter(typed, IsDigit)| >= 4
  {
  }

  /** The check alone is stricter than the button: four characters are not
      enough unless they are digits. */
  lemma PinButtonAloneTooWeak()
    ensures PinSaveEnabled("12a4") && PinUpdate("12a4").Rejected?
  {
    assert !IsDigit("12a4"[2]);
  }

  // ---------------------------------------------------------------------
  // The points dialog
  // ---------------------------------------------------------------------

  /** handleUpdatePoints's check on `parseInt(newPoints)`: the points sent,
      or the message for NaN and for a negative number. */
  function PointsUpdate(newPoints: string): (r: Submission<nat>)
    ensures r.Accepted? <==> ParseInt(newPoints).Some? && ParseInt(newPoints).value >= 0
    ensures r.Accepted? ==> r.value as int == ParseInt(newPoints).value
    ensures r.Rejected? ==> r.reason == MsgInvalidPoints
  {
    match ParseInt(newPoints)
    case None => Rejected(MsgInvalidPoints)
    case Some(p) => if p < 0 then Rejected(MsgInvalidPoints) else Accepted(p)
  }

  /** Typing a number sends that number; typing a negative one is refused. */
  lemma PointsOfTypedNumber(n: nat)
    ensures PointsUpdate(NatToString(n)) == Accepted(n)
    ensures n > 0 ==> PointsUpdate("-" + NatToString(n)).Rejected?
  {
    ParseIntOfRendering(n, []);
    assert NatToString(n) + [] == NatToString(n);
    RenderingStart(n, []);
    ParseIntNegative(NatToString(n));
    ParseDigitsOfRendering(n, []);
  }

  /** An empty field is NaN for the check. */
  lemma EmptyPointsRefused()
    ensures PointsUpdate("").Rejected?
  {
  }

  /** The "-10" button: `String(Math.max(0, parseInt(newPoints || '0') - 10))`;
      a field parseInt cannot read becomes "NaN". */
  function MinusTen(newPoints: string): (r: string)
    ensures ParseInt(OrDefault(newPoints, "0")).None? ==> r == "NaN"
    ensures ParseInt(OrDefault(newPoints, "0")).Some? ==>
              r == NatToString(Max(0, ParseInt(OrDefault(newPoints, "0")).value - 10))
  {
    match ParseInt(OrDefault(newPoints, "0"))
    case None => "NaN"
    case Some(v) => NatToString(Max(0, v - 10))
  }

  /** "-10" lowers a typed number by ten, stopping at zero, treats an empty
      field as zero, and always leaves a value the check accepts when the
      field was readable. */
  lemma MinusTenClamps(n: nat)
    ensures MinusTen(NatToString(n)) == NatToString(if n >= 10 then n - 10 else 0)
    ensures MinusTen("") == "0"
    ensures PointsUpdate(MinusTen(NatToString(n))) == Accepted(if n >= 10 then n - 10 else 0)
  {
    ParseIntOfRendering(n, []);
    assert NatToString(n) + [] == NatToString(n);
    ParseIntOfRendering(0, []);
    assert NatToString(0) + [] == NatToString(0) == "0";
    PointsOfTypedNumber(if n >= 10 then n - 10 else 0);
  }

  /** The "Reset to 0" button's value is accepted as zero. */
  lemma ResetToZeroAccepted()
    ensures PointsUpdate("0") == Accepted(0)
  {
    PointsOfTypedNumber(0);
  }
}

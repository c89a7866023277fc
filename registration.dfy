/**
 * The validation phase of POST /api/auth/register on the web back end: all
 * checks run before any record is created, and the first failing check
 * decides the error. `registered` is getUserByEmail (an account exists).
 */
module Registration {
  import opened Wrappers
  import opened Text

  const MsgAllFields := "All fields are required"
  const MsgPasswordShort := "Password must be at least 8 characters"
  const MsgAccountExists := "An account with this email already exists"
  const MinPasswordLength := 8

  /** A family member of the request; absent and empty strings are falsy. */
  datatype Member = Member(name: string, email: Option<string>, password: Option<string>, isChild: bool)

  datatype RegisterRequest = RegisterRequest(
    familyName: Option<string>, guardianName: Option<string>, guardianEmail: Option<string>,
    password: Option<string>, members: seq<Member>)

  /** A truthy string. */
  predicate Given(s: Option<string>)
  {
    s.Some? && s.value != []
  }

  function MsgUsedTwice(email: string): string { "Email " + email + " is used more than once" }
  function MsgRegistered(email: string): string { "Email " + email + " is already registered" }
  function MsgMemberPassword(name: string): string { "Password for " + name + " must be at least 8 characters" }

  /** A guardian member who supplied a password shorter than 8. */
  predicate WeakPassword(m: Member)
  {
    !m.isChild && Given(m.password) && |m.password.value| < MinPasswordLength
  }

  /** The lower-cased emails members give, in order. */
  function MemberEmails(ms: seq<Member>): (r: seq<string>)
    ensures |r| <= |ms|
  {
    if ms == [] then []
    else (if Given(ms[0].email) then [Lower(ms[0].email.value)] else []) + MemberEmails(ms[1..])
  }

  /** The loop over the members: `seen` is allEmailsToCheck so far. */
  function CheckMembers(ms: seq<Member>, seen: seq<string>, registered: string -> bool): (e: Option<string>)
    decreases |ms|
  {
    if ms == [] then None
    else
      var m := ms[0];
      if Given(m.email) && Lower(m.email.value) in seen then Some(MsgUsedTwice(m.email.value))
      else if Given(m.email) && registered(m.email.value) then Some(MsgRegistered(m.email.value))
      else if WeakPassword(m) then Some(MsgMemberPassword(m.name))
      else CheckMembers(ms[1..], seen + (if Given(m.email) then [Lower(m.email.value)] else []), registered)
  }

  /** The error the handler answers with, or None when validation passes. */
  function Validate(r: RegisterRequest, registered: string -> bool): (e: Option<string>)
    ensures !Given(r.familyName) || !Given(r.guardianName) || !Given(r.guardianEmail) || !Given(r.password)
            ==> e == Some(MsgAllFields)
  {
    if !Given(r.familyName) || !Given(r.guardianName) || !Given(r.guardianEmail) || !Given(r.password) then
      Some(MsgAllFields)
    else if |r.password.value| < MinPasswordLength then Some(MsgPasswordShort)
    else if registered(r.guardianEmail.value) then Some(MsgAccountExists)
    else CheckMembers(r.members, [Lower(r.guardianEmail.value)], registered)
  }

  predicate Distinct(s: seq<string>)
  {
    forall i, j :: 0 <= i < j < |s| ==> s[i] != s[j]
  }

  /** What the member checks demand, stated without the loop: all emails
      distinct case-insensitively (the guardian's included), none already
      registered, and no guardian member with a short password. */
  predicate MembersAcceptable(ms: seq<Member>, seen: seq<string>, registered: string -> bool)
  {
    && Distinct(seen + MemberEmails(ms))
    && NoneRegistered(ms, registered)
    && NoWeakPassword(ms)
  }

  predicate NoneRegistered(ms: seq<Member>, registered: string -> bool)
  {
    forall k :: 0 <= k < |ms| && Given(ms[k].email) ==> !registered(ms[k].email.value)
  }

  predicate NoWeakPassword(ms: seq<Member>)
  {
    forall k :: 0 <= k < |ms| ==> !WeakPassword(ms[k])
  }

  lemma NoneRegisteredCons(ms: seq<Member>, registered: string -> bool)
    requires ms != []
    ensures NoneRegistered(ms, registered)
            <==> !(Given(ms[0].email) && registered(ms[0].email.value)) && NoneRegistered(ms[1..], registered)
  {
    assert forall k :: 1 <= k < |ms| ==> ms[k] == ms[1..][k - 1];
  }

  lemma NoWeakPasswordCons(ms: seq<Member>)
    requires ms != []
    ensures NoWeakPassword(ms) <==> !WeakPassword(ms[0]) && NoWeakPassword(ms[1..])
  {
    assert forall k :: 1 <= k < |ms| ==> ms[k] == ms[1..][k - 1];
  }

  /** An email already seen cannot come again in a list without repeats. */
  lemma DistinctAppend(seen: seq<string>, x: string, rest: seq<string>)
    requires Distinct(seen + [x] + rest)
    ensures x !in seen
  {
    var s := seen + [x] + rest;
    forall i | 0 <= i < |seen|
      ensures seen[i] != x
    {
      assert s[i] == seen[i] && s[|seen|] == x;
    }
  }

  lemma MemberEmailsCons(ms: seq<Member>)
    requires ms != []
    ensures MemberEmails(ms) == (if Given(ms[0].email) then [Lower(ms[0].email.value)] else []) + MemberEmails(ms[1..])
  {
  }

  /** The loop's answer is None exactly when the declarative conditions hold. */
  lemma {:induction false} CheckMembersSound(ms: seq<Member>, seen: seq<string>, registered: string -> bool)
    requires Distinct(seen)
    ensures CheckMembers(ms, seen, registered).None? <==> MembersAcceptable(ms, seen, registered)
    decreases |ms|
  {
    if ms == [] {
      assert seen + MemberEmails(ms) == seen;
    } else {
      var m := ms[0];
      var mine := if Given(m.email) then [Lower(m.email.value)] else [];
      var seen' := seen + mine;
      MemberEmailsCons(ms);
      assert seen + MemberEmails(ms) == seen' + MemberEmails(ms[1..]);
      var ok := !(Given(m.email) && Lower(m.email.value) in seen)
                && !(Given(m.email) && registered(m.email.value)) && !WeakPassword(m);
      if ok {
        assert Distinct(seen') by {
          if Given(m.email) {
            forall i, j | 0 <= i < j < |seen'|
              ensures seen'[i] != seen'[j]
            {
              if j == |seen| { assert seen'[i] == seen[i]; }
            }
          } else {
            assert seen' == seen;
          }
        }
        CheckMembersSound(ms[1..], seen', registered);
        assert CheckMembers(ms, seen, registered) == CheckMembers(ms[1..], seen', registered);
        TailAcceptable(ms, seen, seen', registered);
      } else {
        FirstMemberFails(ms, seen, registered);
      }
    }
  }

  /** With the first member passing its checks, the conditions hold for all
      members exactly when they hold for the rest. */
  lemma TailAcceptable(ms: seq<Member>, seen: seq<string>, seen': seq<string>, registered: string -> bool)
    requires ms != [] && Distinct(seen)
    requires seen' == seen + (if Given(ms[0].email) then [Lower(ms[0].email.value)] else [])
    requires !(Given(ms[0].email) && registered(ms[0].email.value)) && !WeakPassword(ms[0])
    requires seen + MemberEmails(ms) == seen' + MemberEmails(ms[1..])
    ensures MembersAcceptable(ms, seen, registered) <==> MembersAcceptable(ms[1..], seen', registered)
  {
    NoneRegisteredCons(ms, registered);
    NoWeakPasswordCons(ms);
  }

  /** A first member that fails a check makes the conditions fail. */
  lemma FirstMemberFails(ms: seq<Member>, seen: seq<string>, registered: string -> bool)
    requires ms != [] && Distinct(seen)
    requires (Given(ms[0].email) && Lower(ms[0].email.value) in seen)
             || (Given(ms[0].email) && registered(ms[0].email.value)) || WeakPassword(ms[0])
    ensures CheckMembers(ms, seen, registered).Some?
    ensures !MembersAcceptable(ms, seen, registered)
  {
    var m := ms[0];
    if Given(m.email) && Lower(m.email.value) in seen {
      MemberEmailsCons(ms);
      var x := Lower(m.email.value);
      assert seen + MemberEmails(ms) == seen + [x] + MemberEmails(ms[1..]);
      if Distinct(seen + MemberEmails(ms)) {
        DistinctAppend(seen, x, MemberEmails(ms[1..]));
      }
    }
  }

  /** Registration passes validation exactly when every field is given, the
      password has at least 8 characters, the guardian's email is new, and
      the members satisfy MembersAcceptable. */
  lemma ValidateAcceptsExactly(r: RegisterRequest, registered: string -> bool)
    ensures Validate(r, registered).None? <==>
              && Given(r.familyName) && Given(r.guardianName) && Given(r.guardianEmail) && Given(r.password)
              && |r.password.value| >= MinPasswordLength && !registered(r.guardianEmail.value)
              && MembersAcceptable(r.members, [Lower(r.guardianEmail.value)], registered)
  {
    if Given(r.guardianEmail) {
      CheckMembersSound(r.members, [Lower(r.guardianEmail.value)], registered);
    }
  }

  /** A member repeating the guardian's email in other letter case is rejected. */
  lemma GuardianEmailRepeated(r: RegisterRequest, registered: string -> bool, k: nat)
    requires Given(r.familyName) && Given(r.guardianName) && Given(r.guardianEmail) && Given(r.password)
    requires k < |r.members| && Given(r.members[k].email)
    requires Lower(r.members[k].email.value) == Lower(r.guardianEmail.value)
    ensures Validate(r, registered).Some?
  {
    EmailAtIndex(r.members, k);
    var g := Lower(r.guardianEmail.value);
    var s := [g] + MemberEmails(r.members);
    var j :| 0 <= j < |MemberEmails(r.members)| && MemberEmails(r.members)[j] == g;
    assert s[0] == s[j + 1];
    assert !Distinct(s);
    ValidateAcceptsExactly(r, registered);
  }

  /** A member's email appears among the lower-cased emails. */
  lemma {:induction false} EmailAtIndex(ms: seq<Member>, k: nat)
    requires k < |ms| && Given(ms[k].email)
    ensures Lower(ms[k].email.value) in MemberEmails(ms)
    decreases k
  {
    MemberEmailsCons(ms);
    if k > 0 {
      EmailAtIndex(ms[1..], k - 1);
      assert ms[1..][k - 1] == ms[k];
    }
  }

  /** The handler's validation phase as written: early returns, and the
      growing allEmailsToCheck list. */
  method ValidateRegistration(r: RegisterRequest, registered: string -> bool) returns (error: Option<string>)
    ensures error == Validate(r, registered)
  {
    if !Given(r.familyName) || !Given(r.guardianName) || !Given(r.guardianEmail) || !Given(r.password) {
      return Some(MsgAllFields);
    }
    if |r.password.value| < MinPasswordLength {
      return Some(MsgPasswordShort);
    }
    if registered(r.guardianEmail.value) {
      return Some(MsgAccountExists);
    }
    var allEmailsToCheck := [Lower(r.guardianEmail.value)];
    var i := 0;
    while i < |r.members|
      invariant 0 <= i <= |r.members|
      invariant Validate(r, registered) == CheckMembers(r.members[i..], allEmailsToCheck, registered)
    {
      var member := r.members[i];
      ghost var seen := allEmailsToCheck;
      assert r.members[i..][0] == member && r.members[i..][1..] == r.members[i + 1..];
      if Given(member.email) {
        var memberEmailLower := Lower(member.email.value);
        if memberEmailLower in allEmailsToCheck {
          return Some(MsgUsedTwice(member.email.value));
        }
        allEmailsToCheck := allEmailsToCheck + [memberEmailLower];
        if registered(member.email.value) {
          return Some(MsgRegistered(member.email.value));
        }
      }
      if WeakPassword(member) {
        return Some(MsgMemberPassword(member.name));
      }
      assert allEmailsToCheck == seen + (if Given(member.email) then [Lower(member.email.value)] else []);
      assert CheckMembers(r.members[i..], seen, registered)
             == CheckMembers(r.members[i + 1..], allEmailsToCheck, registered);
      i := i + 1;
    }
    return None;
  }
}

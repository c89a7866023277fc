/**
 * The web kid login page: a family name, a kid's name and a PIN typed
 * into four one-character boxes. The boxes are an array of four slots that
 * each edit copies and rewrites at one index.
 */
module KidLogin {
  import opened Wrappers
  import opened Text
  import opened JsNum
  import opened Forms

  const MsgFamily: string := "Please type your family name."
  const MsgName: string := "Please type your name to sign in."
  const MsgPin: string := "Please enter your 4-digit PIN."
  const MsgWelcome: string := "You're now signed in."
  const MsgFailed: string := "Please check your name and PIN."

  /** A box holds nothing or one digit. */
  predicate SlotOk(d: string) { |d| <= 1 && AllDigits(d) }

  /** `value.slice(-1)`: the last character, or nothing. */
  function LastChar(value: string): (r: string)
    ensures |r| <= 1 && (value != [] <==> r != [])
    ensures value != [] ==> r[0] == value[|value| - 1]
  {
    if value == [] then [] else [value[|value| - 1]]
  }

  /** handlePinChange on the boxes: input with a non-digit is ignored,
      otherwise box `index` takes the input's last character. */
  function PinChanged(slots: seq<string>, index: nat, value: string): (r: seq<string>)
    requires index < |slots|
    ensures |r| == |slots|
    ensures !AllDigits(value) ==> r == slots
    ensures AllDigits(value) ==> r[index] == LastChar(value)
    ensures forall k :: 0 <= k < |slots| && k != index ==> r[k] == slots[k]
  {
    if AllDigits(value) then slots[index := LastChar(value)] else slots
  }

  /** An edit keeps every box to at most one digit. */
  lemma PinChangedKeepsSlots(slots: seq<string>, index: nat, value: string)
    requires index < |slots| && forall k :: 0 <= k < |slots| ==> SlotOk(slots[k])
    ensures forall k :: 0 <= k < |slots| ==> SlotOk(PinChanged(slots, index, value)[k])
  {
    if AllDigits(value) && value != [] {
      assert IsDigit(value[|value| - 1]);
    }
  }

  /** `pin.join('')`. */
  function JoinSlots(slots: seq<string>): string
    decreases |slots|
  {
    if slots == [] then [] else JoinSlots(slots[..|slots| - 1]) + slots[|slots| - 1]
  }

  /** Joined boxes of at most one digit each are digits, one per filled box:
      as many as boxes exactly when every box is filled. */
  lemma {:induction false} JoinedSlots(slots: seq<string>)
    requires forall k :: 0 <= k < |slots| ==> SlotOk(slots[k])
    ensures AllDigits(JoinSlots(slots)) && |JoinSlots(slots)| <= |slots|
    ensures |JoinSlots(slots)| == |slots| <==> forall k :: 0 <= k < |slots| ==> slots[k] != []
    decreases |slots|
  {
    if slots != [] {
      var init := slots[..|slots| - 1];
      assert forall k :: 0 <= k < |init| ==> init[k] == slots[k];
      JoinedSlots(init);
      var j := JoinSlots(slots);
      assert j == JoinSlots(init) + slots[|slots| - 1];
      assert forall k :: 0 <= k < |j| ==> IsDigit(j[k]) by {
        forall k | 0 <= k < |j| ensures IsDigit(j[k]) {
          if k < |JoinSlots(init)| {
            assert j[k] == JoinSlots(init)[k];
          } else {
            assert j[k] == slots[|slots| - 1][k - |JoinSlots(init)|];
          }
        }
      }
    }
  }

  /** What handleSubmit sends: the trimmed names and the PIN. */
  datatype Credentials = Credentials(familyName: string, kidName: string, pin: string)

  /** handleSubmit's checks, in order. */
  function SubmitCheck(familyName: string, kidName: string, pinCode: string): (r: Submission<Credentials>)
    ensures r == Rejected(MsgFamily) <==> Blank(familyName)
    ensures r == Rejected(MsgName) <==> !Blank(familyName) && Blank(kidName)
    ensures r == Rejected(MsgPin) <==> !Blank(familyName) && !Blank(kidName) && |pinCode| != 4
    ensures r.Accepted? <==> !Blank(familyName) && !Blank(kidName) && |pinCode| == 4
    ensures r.Accepted? ==> r.value == Credentials(JsTrim(familyName), JsTrim(kidName), pinCode)
  {
    if Blank(familyName) then Rejected(MsgFamily)
    else if Blank(kidName) then Rejected(MsgName)
    else if |pinCode| != 4 then Rejected(MsgPin)
    else Accepted(Credentials(JsTrim(familyName), JsTrim(kidName), pinCode))
  }

  /** The Sign In button: both names given and no box empty. */
  predicate SubmitEnabled(familyName: string, kidName: string, slots: seq<string>)
  {
    !Blank(familyName) && !Blank(kidName) && forall k :: 0 <= k < |slots| ==> slots[k] != []
  }

  /** On four boxes of at most one digit, the button is enabled exactly when
      the checks pass, and the PIN sent is then four digits. */
  lemma ButtonMatchesCheck(familyName: string, kidName: string, slots: seq<string>)
    requires |slots| == 4 && forall k :: 0 <= k < 4 ==> SlotOk(slots[k])
    ensures SubmitEnabled(familyName, kidName, slots) <==>
              SubmitCheck(familyName, kidName, JoinSlots(slots)).Accepted?
    ensures SubmitCheck(familyName, kidName, JoinSlots(slots)).Accepted? ==>
              PinPatternOk(SubmitCheck(familyName, kidName, JoinSlots(slots)).value.pin)
  {
    JoinedSlots(slots);
  }

  predicate PinPatternOk(pin: string) { |pin| == 4 && AllDigits(pin) }

  /** The page's state. */
  class LoginPage {
    var familyName: string
    var kidName: string
    var pin: array<string>
    var toast: Option<string>
    var signedIn: bool

    /** Four boxes of at most one digit each. */
    predicate Valid()
      reads this, pin
    {
      pin.Length == 4 && forall k :: 0 <= k < 4 ==> SlotOk(pin[k])
    }

    constructor()
      ensures Valid() && fresh(pin) && pin[..] == ["", "", "", ""]
      ensures familyName == [] && kidName == [] && toast.None? && !signedIn
    {
      familyName, kidName := [], [];
      pin := new string[4](_ => "");
      toast := None;
      signedIn := false;
    }

    /** handlePinChange: a copy of the boxes with box `index` rewritten. */
    method PinChange(index: nat, value: string)
      requires Valid() && index < 4
      modifies this
      ensures Valid()
      ensures pin[..] == PinChanged(old(pin[..]), index, value)
      ensures AllDigits(value) ==> fresh(pin)
      ensures !AllDigits(value) ==> pin == old(pin)
      ensures familyName == old(familyName) && kidName == old(kidName)
      ensures toast == old(toast) && signedIn == old(signedIn)
    {
      if !AllDigits(value) {
        return;
      }
      var slots := pin;
      var copy := new string[4];
      for k := 0 to 4
        invariant unchanged(this)
        invariant forall j :: 0 <= j < k ==> copy[j] == slots[j]
      {
        copy[k] := slots[k];
      }
      copy[index] := LastChar(value);
      PinChangedKeepsSlots(slots[..], index, value);
      pin := copy;
    }

    /** handleClear: four empty boxes. */
    method Clear()
      requires Valid()
      modifies this
      ensures Valid() && fresh(pin) && pin[..] == ["", "", "", ""]
      ensures familyName == old(familyName) && kidName == old(kidName)
      ensures toast == old(toast) && signedIn == old(signedIn)
    {
      pin := new string[4](_ => "");
    }

    /** handleSubmit; `loggedIn` is whether kidLogin succeeded. A failed
        login empties the boxes. */
    method Submit(loggedIn: bool)
      requires Valid()
      modifies this
      ensures Valid()
      ensures var check := SubmitCheck(old(familyName), old(kidName), JoinSlots(old(pin[..])));
              && (check.Rejected? ==> toast == Some(check.reason) && pin == old(pin) && signedIn == old(signedIn))
              && (check.Accepted? && loggedIn ==> toast == Some(MsgWelcome) && pin == old(pin) && signedIn)
              && (check.Accepted? && !loggedIn ==>
                    toast == Some(MsgFailed) && pin[..] == ["", "", "", ""] && signedIn == old(signedIn))
      ensures familyName == old(familyName) && kidName == old(kidName)
    {
      var check := SubmitCheck(familyName, kidName, JoinSlots(pin[..]));
      if check.Rejected? {
        toast := Some(check.reason);
      } else if loggedIn {
        toast := Some(MsgWelcome);
        signedIn := true;
      } else {
        toast := Some(MsgFailed);
        Clear();
      }
    }
  }
}

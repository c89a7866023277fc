/**
 * The web password reset page: a state machine through the steps email,
 * setup, setup_done, questions and success, driven by three form handlers
 * and two Back buttons. The server calls are results handed to the
 * handlers: None when the call threw.
 */
module ResetPassword {
  import opened Wrappers
  import opened Seqs

  datatype Step = EmailStep | SetupStep | SetupDoneStep | QuestionsStep | SuccessStep

  const SecurityQuestions: seq<string> := [
    "What was the name of your first pet?",
    "What city were you born in?",
    "What is your mother's maiden name?",
    "What was the name of your elementary school?",
    "What is your favorite movie?",
    "What street did you grow up on?",
    "What was your childhood nickname?",
    "What is the name of your favorite childhood friend?",
    "What was your first car?",
    "What is your favorite food?"
  ]

  const MsgMissingEmail: string := "Please enter your email address."
  const MsgNotFound: string := "No account found with that email address."
  const MsgCallFailed: string := "Something went wrong."
  const MsgMissingPassword: string := "Please enter your current password to verify your identity."
  const MsgMissingQuestions: string := "Please select and answer both security questions."
  const MsgSameQuestions: string := "Please choose two different security questions."
  const MsgMissingAnswers: string := "Please answer both security questions."
  const MsgWeakPassword: string := "New password must be at least 8 characters."
  const MsgMismatch: string := "Passwords do not match."

  /** The answer of verifyResetPassword; a missing text is None. */
  datatype VerifyResult = VerifyResult(found: bool, question1: Option<string>, question2: Option<string>,
                                       reason: Option<string>)

  predicate Given(s: Option<string>) { s.Some? && s.value != [] }

  /** Where handleEmailSubmit leads. */
  datatype EmailAnswer = ToQuestions(q1: string, q2: string) | ToSetup | StayWith(message: string)

  function EmailNext(email: string, result: Option<VerifyResult>): (r: EmailAnswer)
    ensures r.ToQuestions? <==>
              email != [] && result.Some? && result.value.found && Given(result.value.question1)
              && Given(result.value.question2)
    ensures r.ToQuestions? ==> r.q1 == result.value.question1.value && r.q2 == result.value.question2.value
    ensures r.ToSetup? <==>
              email != [] && result.Some? && !r.ToQuestions? && result.value.reason == Some("no_security_questions")
    ensures email == [] ==> r == StayWith(MsgMissingEmail)
    ensures email != [] && result.None? ==> r == StayWith(MsgCallFailed)
  {
    if email == [] then StayWith(MsgMissingEmail)
    else match result
      case None => StayWith(MsgCallFailed)
      case Some(v) =>
        if v.found && Given(v.question1) && Given(v.question2) then ToQuestions(v.question1.value, v.question2.value)
        else if v.reason == Some("no_security_questions") then ToSetup
        else StayWith(MsgNotFound)
  }

  /** The setup form: the current password and two questions with answers. */
  datatype SetupForm = SetupForm(password: string, q1: string, a1: string, q2: string, a2: string)

  const EmptySetup := SetupForm([], [], [], [], [])

  /** handleSetupSubmit's checks, in order. */
  function SetupCheck(f: SetupForm): (r: Option<string>)
    ensures r == Some(MsgMissingPassword) <==> f.password == []
    ensures r == Some(MsgMissingQuestions) <==> f.password != [] && (f.q1 == [] || f.a1 == [] || f.q2 == [] || f.a2 == [])
    ensures r.None? <==> f.password != [] && f.q1 != [] && f.a1 != [] && f.q2 != [] && f.a2 != [] && f.q1 != f.q2
  {
    if f.password == [] then Some(MsgMissingPassword)
    else if f.q1 == [] || f.a1 == [] || f.q2 == [] || f.a2 == [] then Some(MsgMissingQuestions)
    else if f.q1 == f.q2 then Some(MsgSameQuestions)
    else None
  }

  /** handleResetSubmit's checks, in order. */
  function ResetCheck(a1: string, a2: string, newPassword: string, confirmPassword: string): (r: Option<string>)
    ensures r == Some(MsgMissingAnswers) <==> a1 == [] || a2 == []
    ensures r == Some(MsgWeakPassword) <==> a1 != [] && a2 != [] && |newPassword| < 8
    ensures r.None? <==> a1 != [] && a2 != [] && |newPassword| >= 8 && newPassword == confirmPassword
  {
    if a1 == [] || a2 == [] then Some(MsgMissingAnswers)
    else if newPassword == [] || |newPassword| < 8 then Some(MsgWeakPassword)
    else if newPassword != confirmPassword then Some(MsgMismatch)
    else None
  }

  /** The second question's choices: every question but the first one chosen. */
  function AvailableQ2(q1: string): (r: seq<string>)
    ensures q1 !in r
    ensures forall i :: 0 <= i < |r| ==> r[i] in SecurityQuestions
    ensures forall i :: 0 <= i < |SecurityQuestions| && SecurityQuestions[i] != q1 ==> SecurityQuestions[i] in r
  {
    Filter(SecurityQuestions, (q: string) => q != q1)
  }

  /** Choosing the second question from its list never trips the same-question check. */
  lemma ChosenFromListsDiffer(f: SetupForm)
    requires f.password != [] && f.a1 != [] && f.a2 != []
    requires f.q1 in SecurityQuestions && f.q2 in AvailableQ2(f.q1)
    ensures SetupCheck(f).None?
  {
    var choices := AvailableQ2(f.q1);
    var i :| 0 <= i < |choices| && choices[i] == f.q2;
    QuestionsAreWorded(f.q1);
    QuestionsAreWorded(f.q2);
  }

  /** Every listed question has a text. */
  lemma QuestionsAreWorded(q: string)
    requires q in SecurityQuestions
    ensures q != []
  {
  }

  /** The page's state. */
  class ResetFlow {
    var step: Step
    var email: string
    var q1: string
    var q2: string
    var a1: string
    var a2: string
    var newPassword: string
    var confirmPassword: string
    var setup: SetupForm
    var toast: Option<string>

    /** The questions step always has both questions to show. */
    predicate Valid()
      reads this
    {
      step == QuestionsStep ==> q1 != [] && q2 != []
    }

    constructor()
      ensures Valid() && step == EmailStep && email == [] && setup == EmptySetup
      ensures a1 == [] && a2 == [] && newPassword == [] && confirmPassword == [] && toast.None?
    {
      step := EmailStep;
      email, q1, q2 := [], [], [];
      a1, a2, newPassword, confirmPassword := [], [], [], [];
      setup := EmptySetup;
      toast := None;
    }

    /** handleEmailSubmit with the server's answer. */
    method SubmitEmail(result: Option<VerifyResult>)
      requires Valid()
      modifies this
      ensures Valid()
      ensures var next := EmailNext(old(email), result);
              && (next.ToQuestions? ==> step == QuestionsStep && q1 == next.q1 && q2 == next.q2 && toast == old(toast))
              && (next.ToSetup? ==> step == SetupStep && q1 == old(q1) && q2 == old(q2) && toast == old(toast))
              && (next.StayWith? ==> step == old(step) && q1 == old(q1) && q2 == old(q2) && toast == Some(next.message))
      ensures email == old(email) && setup == old(setup) && a1 == old(a1) && a2 == old(a2)
      ensures newPassword == old(newPassword) && confirmPassword == old(confirmPassword)
    {
      var next := EmailNext(email, result);
      match next
      case ToQuestions(x, y) =>
        q1, q2 := x, y;
        step := QuestionsStep;
      case ToSetup =>
        step := SetupStep;
      case StayWith(message) =>
        toast := Some(message);
    }

    /** handleSetupSubmit; `saved` is whether setupSecurityQuestions succeeded. */
    method SubmitSetup(saved: bool)
      requires Valid()
      modifies this
      ensures Valid()
      ensures SetupCheck(setup).Some? ==> step == old(step) && toast == SetupCheck(setup)
      ensures SetupCheck(setup).None? && saved ==> step == SetupDoneStep && toast == old(toast)
      ensures SetupCheck(setup).None? && !saved ==> step == old(step) && toast.Some?
      ensures email == old(email) && setup == old(setup) && q1 == old(q1) && q2 == old(q2)
      ensures a1 == old(a1) && a2 == old(a2) && newPassword == old(newPassword)
      ensures confirmPassword == old(confirmPassword)
    {
      var check := SetupCheck(setup);
      if check.Some? {
        toast := check;
      } else if saved {
        step := SetupDoneStep;
      } else {
        toast := Some("Could not set up security questions.");
      }
    }

    /** handleResetSubmit; `reset` is whether resetPassword succeeded. */
    method SubmitReset(reset: bool)
      requires Valid()
      modifies this
      ensures Valid()
      ensures var check := ResetCheck(a1, a2, newPassword, confirmPassword);
              && (check.Some? ==> step == old(step) && toast == check)
              && (check.None? && reset ==> step == SuccessStep && toast == old(toast))
              && (check.None? && !reset ==> step == old(step) && toast.Some?)
      ensures email == old(email) && setup == old(setup) && q1 == old(q1) && q2 == old(q2)
      ensures a1 == old(a1) && a2 == old(a2) && newPassword == old(newPassword)
      ensures confirmPassword == old(confirmPassword)
    {
      var check := ResetCheck(a1, a2, newPassword, confirmPassword);
      if check.Some? {
        toast := check;
      } else if reset {
        step := SuccessStep;
      } else {
        toast := Some("Could not reset password. Check your answers and try again.");
      }
    }

    /** The setup step's Back: to the email step with the setup form cleared. */
    method BackFromSetup()
      requires Valid()
      modifies this
      ensures Valid() && step == EmailStep && setup == EmptySetup
      ensures email == old(email) && q1 == old(q1) && q2 == old(q2) && a1 == old(a1) && a2 == old(a2)
      ensures newPassword == old(newPassword) && confirmPassword == old(confirmPassword) && toast == old(toast)
    {
      step := EmailStep;
      setup := EmptySetup;
    }

    /** The questions step's Back: to the email step with the answers and
        new passwords cleared; the email is kept. */
    method BackFromQuestions()
      requires Valid()
      modifies this
      ensures Valid() && step == EmailStep
      ensures a1 == [] && a2 == [] && newPassword == [] && confirmPassword == []
      ensures email == old(email) && q1 == old(q1) && q2 == old(q2) && setup == old(setup) && toast == old(toast)
    {
      step := EmailStep;
      a1, a2 := [], [];
      newPassword, confirmPassword := [], [];
    }
  }
}

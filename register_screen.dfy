/**
 * The mobile registration screen: three checks, then a request without
 * family members. Its password rule (6 characters) is weaker than the
 * server's (8), and it compares the confirmation first.
 */
module RegisterScreen {
  import opened Wrappers
  import opened RegisterPage
  import Registration

  const AlertMissing: string := "Please fill in all required fields"
  const AlertMismatch: string := "Passwords do not match"
  const AlertShort: string := "Password must be at least 6 characters"

  /** handleRegister: the alert shown, or the request sent. */
  function HandleRegister(form: DetailsForm): (r: Result)
    ensures r == Alerted(AlertMissing) <==>
              form.familyName == [] || form.guardianName == [] || form.guardianEmail == [] || form.password == []
    ensures r == Alerted(AlertMismatch) <==>
              form.familyName != [] && form.guardianName != [] && form.guardianEmail != [] && form.password != []
              && form.password != form.confirmPassword
    ensures r == Alerted(AlertShort) <==>
              form.familyName != [] && form.guardianName != [] && form.guardianEmail != []
              && form.password == form.confirmPassword && 0 < |form.password| < 6
    ensures r.Sent? <==>
              form.familyName != [] && form.guardianName != [] && form.guardianEmail != []
              && form.password == form.confirmPassword && |form.password| >= 6
    ensures r.Sent? ==> r.request.members == [] && r.request.password == Some(form.password)
  {
    if form.familyName == [] || form.guardianName == [] || form.guardianEmail == [] || form.password == [] then
      Alerted(AlertMissing)
    else if form.password != form.confirmPassword then Alerted(AlertMismatch)
    else if |form.password| < 6 then Alerted(AlertShort)
    else Sent(Registration.RegisterRequest(Some(form.familyName), Some(form.guardianName),
                                           Some(form.guardianEmail), Some(form.password), []))
  }

  datatype Result = Alerted(message: string) | Sent(request: Registration.RegisterRequest)

  /** A six- or seven-character password passes the screen and is refused
      by the server. */
  lemma ShortPasswordReachesServer(form: DetailsForm, registered: string -> bool)
    requires form.familyName != [] && form.guardianName != [] && form.guardianEmail != []
    requires form.password == form.confirmPassword && 6 <= |form.password| < 8
    ensures HandleRegister(form).Sent?
    ensures Registration.Validate(HandleRegister(form).request, registered) == Some(Registration.MsgPasswordShort)
  {
  }

  /** Details the web wizard's first step accepts, the screen sends too. */
  lemma ScreenWeakerThanWizard(form: DetailsForm)
    requires ValidateStep1(form).None?
    ensures HandleRegister(form).Sent?
  {
  }
}

/**
 The sign-up form: four text fields and a handler that validates them,
 alerts, and on success replaces the navigation stack with the report screen.
 */
module Signup {
  import opened Ui

  datatype Form = Form(name: string, email: string, password: string, confirmPassword: string)

  const FillAllMessage: string := "Please fill in all fields"
  const MismatchMessage: string := "Passwords do not match"
  const CreatedMessage: string := "Account created successfully!"

  /** All four fields are truthy. */
  predicate AllFilled(f: Form) {
    Filled(f.name) && Filled(f.email) && Filled(f.password) && Filled(f.confirmPassword)
  }

  /**
   `handleSignup`: the form is returned as it came in, because the handler
   only reads it. Emptiness is checked before the passwords are compared.
   */
  function HandleSignup(f: Form): (r: (Form, Outcome))
    ensures r.0 == f
    ensures r.1.notice.Alert? && r.1.notice.title == "" && r.1.notice.buttons == []
    ensures r.1.nav != Stay <==> AllFilled(f) && f.password == f.confirmPassword
    ensures r.1.nav != Stay ==>
              r.1.nav == ResetTo(0, [ReportRoute]) && r.1.notice.message == CreatedMessage
    ensures !AllFilled(f) ==> r.1 == PlainAlert(FillAllMessage)
    ensures AllFilled(f) && f.password != f.confirmPassword ==> r.1 == PlainAlert(MismatchMessage)
  {
    if f.name != [] && f.email != [] && f.password != [] && f.confirmPassword != [] then
      if f.password == f.confirmPassword then
        (f, Outcome(Alert("", CreatedMessage, []), ResetTo(0, [ReportRoute])))
      else
        (f, PlainAlert(MismatchMessage))
    else
      (f, PlainAlert(FillAllMessage))
  }

  /** Success, and only success, resets the stack to the single route 'Report'. */
  lemma SignupSucceedsIff(f: Form)
    ensures HandleSignup(f).1.nav == ResetTo(0, [ReportRoute])
            <==> AllFilled(f) && f.password == f.confirmPassword
  {
  }

  /** An empty field wins over a password mismatch. */
  lemma EmptyFieldReportedBeforeMismatch(f: Form)
    requires !AllFilled(f) && f.password != f.confirmPassword
    ensures HandleSignup(f).1 == PlainAlert(FillAllMessage)
  {
  }

  /**
   The comparison is exact string equality: any two filled passwords that
   are not the same string, however close (letter case, a trailing space),
   are refused without navigating.
   */
  lemma ComparisonIsExact(f: Form)
    requires AllFilled(f) && f.password != f.confirmPassword
    ensures HandleSignup(f) == (f, PlainAlert(MismatchMessage))
    ensures HandleSignup(f).1.nav == Stay
  {
  }

  /** No trimming: a confirmation with one extra trailing space never matches. */
  lemma TrailingSpaceMismatches(name: string, email: string, password: string)
    requires name != [] && email != [] && password != []
    ensures HandleSignup(Form(name, email, password, password + " ")).1 == PlainAlert(MismatchMessage)
  {
    assert |password + " "| != |password|;
  }

  /** No case folding: 'secret' and 'Secret' do not match. */
  lemma LetterCaseMatters()
    ensures HandleSignup(Form("Ann", "a@b.c", "secret", "Secret")).1 == PlainAlert(MismatchMessage)
  {
  }
}

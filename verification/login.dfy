/**
 The login form: e-mail and password, checked only for presence.
 */
module Login {
  import opened Ui

  datatype Form = Form(email: string, password: string)

  const FillAllMessage: string := "Please fill in all fields"

  /**
   `handleLogin`: with both fields non-empty it resets the navigation stack
   to the report screen without any alert; otherwise it alerts and stays.
   No format check is applied to the e-mail, and the form is not changed.
   */
  function HandleLogin(f: Form): (r: (Form, Outcome))
    ensures r.0 == f
    ensures Filled(f.email) && Filled(f.password) <==> r.1.nav != Stay
    ensures r.1.nav != Stay ==> r.1 == Outcome(Silent, ResetTo(0, [ReportRoute]))
    ensures r.1.nav == Stay ==> r.1 == PlainAlert(FillAllMessage)
  {
    if f.email != [] && f.password != [] then
      (f, Outcome(Silent, ResetTo(0, [ReportRoute])))
    else
      (f, PlainAlert(FillAllMessage))
  }

  /** Any non-empty e-mail is accepted, whether or not it looks like an address. */
  lemma AnyNonEmptyEmailAccepted(email: string, password: string)
    requires email != [] && password != []
    ensures HandleLogin(Form(email, password)).1.nav == ResetTo(0, [ReportRoute])
  {
  }

  /** A concrete instance: "x" is not an address but logs in. */
  lemma MalformedEmailLogsIn()
    ensures HandleLogin(Form("x", "pw")).1 == Outcome(Silent, ResetTo(0, [ReportRoute]))
  {
  }
}

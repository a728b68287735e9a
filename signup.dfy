/** The three-step sign-up page (`src/pages/SignupPage.tsx`): personal
    details, then a password, then an optional company; the last step calls
    the provider's `signup` and then `login`. The answers of those two calls
    are parameters. */
module Signup {
  import opened Base

  /** The current step. The page uses the id 'company' for the last step. */
  datatype SignupStep = Info | Password | Company

  /** The texts the form edits. */
  datatype SignupFields = SignupFields(firstName: string, lastName: string, email: string,
                                       password: string, confirmPassword: string,
                                       companyName: string, companyDomain: string)

  const EmptyFields := SignupFields("", "", "", "", "", "", "")

  const FillAllFields := "Please fill in all fields"
  const PasswordRequired := "Password is required"
  const PasswordsDiffer := "Passwords do not match"
  const PasswordTooShort := "Password must be at least 6 characters"
  const FillRequiredFields := "Please fill in all required fields"
  const CreateFailed := "Failed to create account"

  /** The shortest password the password step accepts. */
  const MinPasswordLength := 6

  /** The step and error message after a submission. */
  datatype Submitted = Submitted(step: SignupStep, error: string)

  /** `handleSubmit`: the error is cleared, then the current step's checks
      run in order; the first failing one sets its message and the step
      stays; when all pass the next step is shown. On the company step the
      submission does nothing but clear the error. */
  function Submit(step: SignupStep, f: SignupFields): (r: Submitted)
    ensures step == Info ==>
              if f.firstName == "" || f.lastName == "" || f.email == ""
              then r == Submitted(Info, FillAllFields) else r == Submitted(Password, "")
    ensures step == Password && f.password == "" ==> r == Submitted(Password, PasswordRequired)
    ensures step == Password && f.password != "" && f.password != f.confirmPassword ==>
              r == Submitted(Password, PasswordsDiffer)
    ensures (step == Password && f.password != "" && f.password == f.confirmPassword
             && |f.password| < MinPasswordLength) ==> r == Submitted(Password, PasswordTooShort)
    ensures (step == Password && f.password != "" && f.password == f.confirmPassword
             && |f.password| >= MinPasswordLength) ==> r == Submitted(Company, "")
    ensures step == Company ==> r == Submitted(Company, "")
    ensures r.error == "" <==> r.step != step || step == Company
  {
    match step
    case Info =>
      if f.firstName == "" || f.lastName == "" || f.email == "" then Submitted(Info, FillAllFields)
      else Submitted(Password, "")
    case Password =>
      if f.password == "" then Submitted(Password, PasswordRequired)
      else if f.password != f.confirmPassword then Submitted(Password, PasswordsDiffer)
      else if |f.password| < MinPasswordLength then Submitted(Password, PasswordTooShort)
      else Submitted(Company, "")
    case Company => Submitted(Company, "")
  }

  /** The company step is reached only with a password of at least six
      characters typed twice, and only from the password step. */
  lemma CompanyNeedsGoodPassword(step: SignupStep, f: SignupFields)
    requires step != Company && Submit(step, f).step == Company
    ensures step == Password
    ensures f.password == f.confirmPassword && |f.password| >= MinPasswordLength
  {
  }

  /** `handleBack`: one step back; nothing on the first step. */
  function Back(step: SignupStep): (r: SignupStep)
    ensures step == Info ==> r == Info
    ensures step == Password ==> r == Info
    ensures step == Company ==> r == Password
  {
    match step
    case Info => Info
    case Password => Info
    case Company => Password
  }

  /** Going back undoes a submission that moved forward. */
  lemma BackUndoesAdvance(step: SignupStep, f: SignupFields)
    requires Submit(step, f).step != step
    ensures Back(Submit(step, f).step) == step
  {
  }

  /** The user metadata `completeSignup` sends. */
  datatype Metadata = Metadata(name: string, role: string, skipCompany: string,
                               company: Option<(string, string)>)

  /** The arguments of the provider's `signup` call. */
  datatype SignupRequest = SignupRequest(email: string, password: string, fullName: string,
                                         role: string, metadata: Metadata)

  function FullName(f: SignupFields): string {
    f.firstName + " " + f.lastName
  }

  /** The metadata: always a customer; the company only when it is not
      skipped and both its name and domain are given. */
  function MetadataFor(f: SignupFields, skipCompany: bool): (m: Metadata)
    ensures m.name == FullName(f) && m.role == "customer"
    ensures m.skipCompany == if skipCompany then "true" else "false"
    ensures m.company.Some? <==> !skipCompany && f.companyName != "" && f.companyDomain != ""
    ensures m.company.Some? ==> m.company.value == (f.companyName, f.companyDomain)
  {
    Metadata(FullName(f), "customer", if skipCompany then "true" else "false",
             if !skipCompany && f.companyName != "" && f.companyDomain != ""
             then Some((f.companyName, f.companyDomain)) else None)
  }

  /** `(err as Error).message || 'Failed to create account'`. */
  function FailureMessage(message: string): (r: string)
    ensures r != ""
    ensures message != "" ==> r == message
  {
    if message != "" then message else CreateFailed
  }

  /** How `completeSignup` ended: refused before any call, the sign-up call
      failed, the login after it failed, or the user is in and sent to the
      dashboard. */
  datatype Completion = Refused | SignupFailed(request: SignupRequest)
                      | LoginFailed(request: SignupRequest) | SignedUp(request: SignupRequest)

  /** The page's state. */
  class SignupFlow {
    var step: SignupStep
    var fields: SignupFields
    var error: string

    constructor()
      ensures step == Info && fields == EmptyFields && error == ""
    {
      step := Info;
      fields := EmptyFields;
      error := "";
    }

    /** Any of the input handlers. */
    method SetFields(f: SignupFields)
      modifies this
      ensures fields == f && step == old(step) && error == old(error)
    {
      fields := f;
    }

    method HandleSubmit()
      modifies this
      ensures Submitted(step, error) == Submit(old(step), old(fields))
      ensures fields == old(fields)
    {
      error := "";
      if step == Info {
        if fields.firstName == "" || fields.lastName == "" || fields.email == "" {
          error := FillAllFields;
          return;
        }
        step := Password;
      } else if step == Password {
        if fields.password == "" {
          error := PasswordRequired;
          return;
        }
        if fields.password != fields.confirmPassword {
          error := PasswordsDiffer;
          return;
        }
        if |fields.password| < MinPasswordLength {
          error := PasswordTooShort;
          return;
        }
        step := Company;
      }
    }

    method HandleBack()
      modifies this
      ensures step == Back(old(step))
      ensures fields == old(fields) && error == old(error)
    {
      if step == Password {
        step := Info;
      } else if step == Company {
        step := Password;
      }
    }

    /** `completeSignup`, with the error messages the two provider calls
        throw (None when they succeed). The error is cleared first; missing
        personal details or password stop it before any call. */
    method CompleteSignup(skipCompany: bool, signupError: Option<string>, loginError: Option<string>)
      returns (outcome: Completion)
      modifies this
      ensures var f := old(fields);
              var missing := f.firstName == "" || f.lastName == "" || f.email == "" || f.password == "";
              var req := SignupRequest(f.email, f.password, FullName(f), "customer", MetadataFor(f, skipCompany));
              (missing ==> outcome == Refused && error == FillRequiredFields)
              && (!missing && signupError.Some? ==>
                    outcome == SignupFailed(req) && error == FailureMessage(signupError.value))
              && (!missing && signupError.None? && loginError.Some? ==>
                    outcome == LoginFailed(req) && error == FailureMessage(loginError.value))
              && (!missing && signupError.None? && loginError.None? ==> outcome == SignedUp(req) && error == "")
      ensures step == old(step) && fields == old(fields)
    {
      error := "";
      if fields.firstName == "" || fields.lastName == "" || fields.email == "" || fields.password == "" {
        error := FillRequiredFields;
        return Refused;
      }
      var req := SignupRequest(fields.email, fields.password, FullName(fields), "customer",
                               MetadataFor(fields, skipCompany));
      if signupError.Some? {
        error := FailureMessage(signupError.value);
        return SignupFailed(req);
      }
      if loginError.Some? {
        error := FailureMessage(loginError.value);
        return LoginFailed(req);
      }
      outcome := SignedUp(req);
    }
  }
}

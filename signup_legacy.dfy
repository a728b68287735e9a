/** The older sign-up page (`src/components/SignupPage.tsx`): the same three
    steps, a password step that only compares the two passwords, and a last
    step that logs in directly. The login's failure is a parameter. */
module SignupLegacy {
  import opened Base
  import opened Signup

  /** `handleSubmit` of the older page, with whether the login of the last
      step fails. Returns the new step and error, and whether the user is
      sent to the dashboard. */
  function LegacySubmit(step: SignupStep, f: SignupFields, loginFails: bool): (r: (Submitted, bool))
    ensures step == Info ==> r.0 == Submit(Info, f) && !r.1
    ensures step == Password ==>
              !r.1 && r.0.step != Info && (r.0.step == Company <==> f.password == f.confirmPassword)
              && r.0.error == (if r.0.step == Company then "" else PasswordsDiffer)
    ensures step == Company ==>
              r.0.step == Company && (r.1 <==> !loginFails)
              && r.0.error == (if loginFails then CreateFailed else "")
  {
    match step
    case Info =>
      if f.firstName == "" || f.lastName == "" || f.email == "" then (Submitted(Info, FillAllFields), false)
      else (Submitted(Password, ""), false)
    case Password =>
      if f.password != f.confirmPassword then (Submitted(Password, PasswordsDiffer), false)
      else (Submitted(Company, ""), false)
    case Company =>
      if loginFails then (Submitted(Company, CreateFailed), false) else (Submitted(Company, ""), true)
  }

  /** The older password step lets through everything the newer one does,
      and also an empty or short password typed twice. */
  lemma LegacyPasswordStepIsLaxer(f: SignupFields, b: bool)
    ensures Submit(Password, f).step == Company ==> LegacySubmit(Password, f, b).0.step == Company
    ensures f.password == "" && f.confirmPassword == "" ==>
              LegacySubmit(Password, f, b).0.step == Company && Submit(Password, f).step == Password
  {
  }

  /** Going back works the same on both pages. */
  lemma LegacyBackUndoesAdvance(step: SignupStep, f: SignupFields, b: bool)
    requires LegacySubmit(step, f, b).0.step != step
    ensures Back(LegacySubmit(step, f, b).0.step) == step
  {
  }

  /** The older page's state. */
  class LegacySignupFlow {
    var step: SignupStep
    var fields: SignupFields
    var error: string

    constructor()
      ensures step == Info && fields == EmptyFields && error == ""
    {
      step := Info;
      fields := EmptyFields;
      error := "";
    }

    method SetFields(f: SignupFields)
      modifies this
      ensures fields == f && step == old(step) && error == old(error)
    {
      fields := f;
    }

    method HandleSubmit(loginFails: bool) returns (toDashboard: bool)
      modifies this
      ensures (Submitted(step, error), toDashboard) == LegacySubmit(old(step), old(fields), loginFails)
      ensures fields == old(fields)
    {
      error := "";
      toDashboard := false;
      if step == Info {
        if fields.firstName == "" || fields.lastName == "" || fields.email == "" {
          error := FillAllFields;
          return;
        }
        step := Password;
      } else if step == Password {
        if fields.password != fields.confirmPassword {
          error := PasswordsDiffer;
          return;
        }
        step := Company;
      } else {
        if loginFails {
          error := CreateFailed;
        } else {
          toDashboard := true;
        }
      }
    }

    method HandleBack()
      modifies this
      ensures step == Back(old(step))
      ensures fields == old(fields) && error == old(error)
    {
      if step == Password {
        step := Info;
      } else if step == Company {
        step := Password;
      }
    }
  }
}

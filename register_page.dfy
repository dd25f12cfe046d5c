/**
  The sign-up page (frontend/src/pages/Register.js): its two password rules,
  the confirmation check, the order of the checks on submit and the body it
  posts to POST /api/register, always with the role "customer".

  The register endpoint never answers 401, so the request layer's failure
  handler leaves the browser as it is and is not modelled here.
*/
module RegisterPage {
  import opened Common
  import opened Models
  import opened ClientData
  import opened AuthRoutes

  /** passwordRules.length */
  predicate LengthRule(p: string) {
    |p| >= 8
  }

  /** passwordRules.special: `/[@$!%*?&]/.test(p)`, the symbol test the endpoint also uses. */
  predicate SpecialRule(p: string) {
    HasSymbol(p)
  }

  /** rulesPassed: how many of the two rules hold. */
  function RulesPassed(p: string): (n: nat)
    ensures n <= 2
    ensures n == 2 <==> LengthRule(p) && SpecialRule(p)
    ensures n == 0 <==> !LengthRule(p) && !SpecialRule(p)
  {
    (if LengthRule(p) then 1 else 0) + (if SpecialRule(p) then 1 else 0)
  }

  /** isStrongPassword: `rulesPassed === 2` */
  predicate IsStrongPassword(p: string) {
    RulesPassed(p) == 2
  }

  /** passwordsMatch: a non-empty confirmation equal to the password. */
  predicate PasswordsMatch(password: string, confirm: string) {
    confirm != "" && password == confirm
  }

  /** Every password the endpoint's pattern accepts also passes the page's strength rule. */
  lemma BackendAcceptedIsStrong(p: string)
    requires PasswordPatternMatches(p)
    ensures IsStrongPassword(p)
  {
    var i :| 0 <= i < |p| && IsPasswordSymbol(p[i]) && forall j :: 0 <= j < i ==> p[j] != '\n';
    assert SpecialRule(p);
  }

  /** The converse fails: the page lets a password with a space through, and the endpoint refuses it. */
  lemma StrongButRefused()
    ensures IsStrongPassword("abc def@")
    ensures !PasswordPatternMatches("abc def@")
  {
    var p := "abc def@";
    assert IsPasswordSymbol(p[7]);
    assert SpecialRule(p);
    forall m | 8 <= m <= |p|
      ensures !AllPasswordChars(p[..m])
    {
      assert p[..m][3] == ' ';
    }
  }

  const WeakMessage := "Password must be 8+ chars and include 1 special character (@$!%*?&)."
  const MismatchMessage := "Passwords do not match"

  datatype RegisterField = NameField | EmailField | PasswordField | ConfirmField

  /** The answer to the post: a 2xx with its "message" member, or a failure. */
  datatype RegisterOutcome = Created(message: Option<string>) | Failed(failure: Failure)

  /** How the page receives what the register endpoint replies; its refusals carry a "message". */
  function FromServer(r: Reply<string>): RegisterOutcome {
    match r
    case Ok(_, m) => Created(Some(m))
    case Err(c, m) => Failed(Response(c, Some(m), None))
  }

  /** `{ ...data, role: "customer" }` as the endpoint reads it. */
  function Payload(name: string, email: string, password: string, confirm: string): RegisterBody {
    RegisterBody(Some(name), Some(email), Some(password), Some(confirm), GivenRole("customer"))
  }

  class RegisterForm {
    var name: string
    var email: string
    var password: string
    var confirmPassword: string
    var loading: bool
    var error: string
    var success: string

    constructor ()
      ensures name == "" && email == "" && password == "" && confirmPassword == ""
      ensures !loading && error == "" && success == ""
    {
      name, email, password, confirmPassword := "", "", "", "";
      loading, error, success := false, "", "";
    }

    /** The submit button's `disabled`. */
    predicate SubmitDisabled()
      reads this
    {
      !IsStrongPassword(password) || !PasswordsMatch(password, confirmPassword) || loading
    }

    /** handleChange: one field takes the typed value and the error is cleared. */
    method HandleChange(field: RegisterField, value: string)
      modifies this
      ensures name == (if field == NameField then value else old(name))
      ensures email == (if field == EmailField then value else old(email))
      ensures password == (if field == PasswordField then value else old(password))
      ensures confirmPassword == (if field == ConfirmField then value else old(confirmPassword))
      ensures error == "" && success == old(success) && loading == old(loading)
    {
      match field {
        case NameField => name := value;
        case EmailField => email := value;
        case PasswordField => password := value;
        case ConfirmField => confirmPassword := value;
      }
      error := "";
    }

    /**
      handleSubmit: strength is checked first, then the confirmation, and
      neither failure sends anything. A sent body always asks for the role
      "customer"; success schedules the move to /login.
    */
    method HandleSubmit(outcome: RegisterOutcome) returns (sent: Option<RegisterBody>, navigateLater: Option<string>)
      modifies this
      ensures name == old(name) && email == old(email) && password == old(password) && confirmPassword == old(confirmPassword)
      ensures !IsStrongPassword(password) ==> sent.None? && error == WeakMessage && success == ""
      ensures IsStrongPassword(password) && !PasswordsMatch(password, confirmPassword) ==>
        sent.None? && error == MismatchMessage && success == ""
      ensures sent.Some? <==> IsStrongPassword(password) && PasswordsMatch(password, confirmPassword)
      ensures sent.None? ==> navigateLater.None? && loading == old(loading)
      ensures sent.Some? ==> sent.value == Payload(name, email, password, confirmPassword) && !loading
      ensures sent.Some? && outcome.Created? ==>
        success == OptOrElse(outcome.message, "Account created successfully!") && error == "" && navigateLater == Some("/login")
      ensures sent.Some? && outcome.Failed? ==>
        error == MessageOr(outcome.failure, "Registration failed") && success == "" && navigateLater.None?
    {
      error, success := "", "";
      if !IsStrongPassword(password) {
        error := WeakMessage;
        return None, None;
      }
      if !PasswordsMatch(password, confirmPassword) {
        error := MismatchMessage;
        return None, None;
      }
      loading := true;
      sent := Some(Payload(name, email, password, confirmPassword));
      match outcome {
        case Created(m) =>
          success := OptOrElse(m, "Account created successfully!");
          navigateLater := Some("/login");
        case Failed(f) =>
          error := MessageOr(f, "Registration failed");
          navigateLater := None;
      }
      loading := false;
    }
  }

  /** An account created from this page always has the role "customer", whatever the endpoint's default. */
  lemma PageSignUpIsCustomer(t: Tables, name: string, email: string, password: string, confirm: string)
    requires RegisterOn(t, Some(Payload(name, email, password, confirm))).1.Ok?
    ensures var us := RegisterOn(t, Some(Payload(name, email, password, confirm))).0.users;
      us[|us| - 1].role == "customer" && us[|us| - 1].email == NormalEmail(email)
  {
    RegisterStores(t, Some(Payload(name, email, password, confirm)));
  }

  /**
    A body the page sends passes the endpoint's confirmation check; the
    endpoint can still refuse it, and the page then shows the endpoint's words.
  */
  lemma PageSignUpRefusal(t: Tables, name: string, email: string, password: string, confirm: string)
    requires IsStrongPassword(password) && PasswordsMatch(password, confirm)
    requires RegisterOn(t, Some(Payload(name, email, password, confirm))).1.Err?
    ensures var r := RegisterOn(t, Some(Payload(name, email, password, confirm))).1;
      && r.message != MismatchMessage
      && MessageOr(FromServer(r).failure, "Registration failed") == r.message
  {
    var r := RegisterOn(t, Some(Payload(name, email, password, confirm))).1;
    assert r.message in {"All fields are required", WeakPasswordMessage, "User already exists"};
  }
}

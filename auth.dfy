/**
 * Sign-in against the fixed credential table (contexts/AuthContext.tsx):
 * one code and password per role, the user record a successful login
 * produces, and sign-out.
 */
module Auth {
  import opened Types
  import opened Text

  datatype Credentials = Credentials(code: string, password: string)

  /** The hard-coded pair of each role. */
  function CredentialsOf(role: Role): Credentials
  {
    match role
    case Operador => Credentials("OP01", "operador123")
    case Gerente => Credentials("GE01", "gerente456")
    case Diretor => Credentials("DI01", "diretor789")
  }

  const LOGIN_ERROR: string := "Código ou senha inválidos."

  /** The person behind each demo account. */
  function PersonName(role: Role): string
  {
    match role
    case Diretor => "Alice"
    case Gerente => "Beto"
    case Operador => "Carlos"
  }

  /** `${userName} (${role})`. */
  function DisplayName(role: Role): string
  {
    PersonName(role) + " (" + RoleName(role) + ")"
  }

  datatype LoginOutcome = LoggedIn(user: User) | Rejected(message: string)

  /** The check made when the simulated call completes. */
  function CheckLogin(role: Role, code: string, password: string): LoginOutcome
  {
    var expected := CredentialsOf(role);
    if expected.code == code && expected.password == password
    then LoggedIn(User(DisplayName(role), role))
    else Rejected(LOGIN_ERROR)
  }

  /**
   * A login succeeds exactly when code and password are the chosen role's
   * pair; the user then has that role and the role's display name, and a
   * failure carries the fixed message.
   */
  lemma CheckLoginSpec(role: Role, code: string, password: string)
    ensures CheckLogin(role, code, password).LoggedIn? <==> Credentials(code, password) == CredentialsOf(role)
    ensures CheckLogin(role, code, password).LoggedIn? ==>
              CheckLogin(role, code, password).user.role == role
              && CheckLogin(role, code, password).user.name == DisplayName(role)
    ensures CheckLogin(role, code, password).Rejected? ==> CheckLogin(role, code, password).message == LOGIN_ERROR
  {
  }

  /**
   * The three codes differ, so a code and password pair signs in under at
   * most one role, and no two roles share a display name.
   */
  lemma CredentialsDistinct(r1: Role, r2: Role, code: string, password: string)
    ensures CredentialsOf(r1).code == CredentialsOf(r2).code ==> r1 == r2
    ensures CheckLogin(r1, code, password).LoggedIn? && CheckLogin(r2, code, password).LoggedIn? ==> r1 == r2
    ensures DisplayName(r1) == DisplayName(r2) ==> r1 == r2
  {
  }

  /** The signed-in user, shared by every page. */
  class AuthState {
    var user: Option<User>

    constructor ()
      ensures user.None?
    {
      user := None;
    }

    /** `login`: on success the user is set; on failure it is left as it was and the error is returned. */
    method Login(role: Role, code: string, password: string) returns (outcome: LoginOutcome)
      modifies this
      ensures outcome == CheckLogin(role, code, password)
      ensures outcome.LoggedIn? ==> user == Some(outcome.user)
      ensures outcome.Rejected? ==> user == old(user)
    {
      outcome := CheckLogin(role, code, password);
      if outcome.LoggedIn? {
        user := Some(outcome.user);
      }
    }

    /** `logout`. */
    method Logout()
      modifies this
      ensures user.None?
    {
      user := None;
    }
  }
}

/** The authentication repository (`AuthRepository`): sign-in and sign-up
    against the authentication API, with the session saved on success, and
    sign-out. The API is a parameter of each call. */
module Auth {
  import opened Wrappers
  import opened Domain
  import opened Session

  const LoginFailed := "Correo o contraseña incorrectos. Verifica tu conexión."
  const RegisterFailed := "Error al registrar. El correo puede estar ya registrado."
  const ResetUnavailable := "Funcionalidad no disponible aún"

  /** The user a successful authentication hands back. */
  function UserOf(response: AuthResponse): (u: User)
    ensures u.id == response.id && u.email == response.email && u.name == response.name
  {
    User(response.id, response.email, response.name)
  }

  /** The session store after a successful authentication with `response`. */
  function SessionAfter(prefs: map<string, string>, response: AuthResponse): map<string, string> {
    WithUserSession(prefs, response.id, response.email, response.name, Some(response.token))
  }

  /** After a successful authentication the store names the user the caller
      received, holds the response's token, and is signed in. */
  lemma SessionAfterNamesUser(prefs: map<string, string>, response: AuthResponse)
    ensures var p := SessionAfter(prefs, response);
            Lookup(p, UserIdKey) == Some(UserOf(response).id)
            && Lookup(p, UserEmailKey) == Some(UserOf(response).email)
            && Lookup(p, UserNameKey) == Some(UserOf(response).name)
            && Lookup(p, AuthTokenKey) == Some(response.token)
            && LoggedIn(p)
  {
    SessionWithTokenIsLoggedIn(prefs, response.id, response.email, response.name, response.token);
  }

  class AuthRepository {
    const session: SessionManager

    constructor (session: SessionManager)
      ensures this.session == session
    {
      this.session := session;
    }

    /** Saves the session the response describes and returns its user. */
    method Accept(response: AuthResponse) returns (r: Result<User>)
      modifies session
      ensures r == Success(UserOf(response))
      ensures session.prefs == SessionAfter(old(session.prefs), response)
      ensures session.IsLoggedIn()
    {
      session.SaveUserSession(response.id, response.email, response.name, Some(response.token));
      r := Success(User(response.id, response.email, response.name));
    }

    /** `login`: one call with the credentials as given. On a reply the session
        is saved and the user returned; on any failure the fixed message is
        returned and the session is left as it was. */
    method Login(email: string, password: string, login: LoginRequest -> Remote<AuthResponse>)
      returns (r: Result<User>)
      modifies session
      ensures login(LoginRequest(email, password)).Reply? ==>
                var response := login(LoginRequest(email, password)).body;
                r == Success(UserOf(response))
                && session.prefs == SessionAfter(old(session.prefs), response)
                && session.IsLoggedIn()
      ensures login(LoginRequest(email, password)).Fault? ==>
                r == Failure(Some(LoginFailed)) && session.prefs == old(session.prefs)
    {
      match login(LoginRequest(email, password)) {
        case Reply(response) =>
          r := Accept(response);
        case Fault(_) =>
          r := Failure(Some(LoginFailed));
      }
    }

    /** `register`: one call with `RegisterRequest(name, email, password)`,
        then the same session handling as `login`, with its own failure message. */
    method Register(email: string, password: string, name: string,
                    register: RegisterRequest -> Remote<AuthResponse>)
      returns (r: Result<User>)
      modifies session
      ensures register(RegisterRequest(name, email, password)).Reply? ==>
                var response := register(RegisterRequest(name, email, password)).body;
                r == Success(UserOf(response))
                && session.prefs == SessionAfter(old(session.prefs), response)
                && session.IsLoggedIn()
      ensures register(RegisterRequest(name, email, password)).Fault? ==>
                r == Failure(Some(RegisterFailed)) && session.prefs == old(session.prefs)
    {
      match register(RegisterRequest(name, email, password)) {
        case Reply(response) =>
          r := Accept(response);
        case Fault(_) =>
          r := Failure(Some(RegisterFailed));
      }
    }

    /** `logout`: the whole store is cleared, so nobody is signed in. */
    method Logout()
      modifies session
      ensures session.prefs == map[]
      ensures !session.IsLoggedIn()
    {
      session.ClearSession();
    }

    /** `resetPassword`: not implemented by the backend; it always fails and touches nothing. */
    function ResetPassword(email: string): (r: Result<()>)
      ensures r.Failure? && r.message == Some(ResetUnavailable)
    {
      Failure(Some(ResetUnavailable))
    }
  }
}

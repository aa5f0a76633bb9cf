/** Signing in: send the credentials, store the token, read the profile and
    go to the landing page of the user's role; on failure show a message. */
module Login {
  import opened Base
  import opened Domain
  import opened VerticalNavbar

  /** The role `switch` of `handleSubmit` as it is written: the
      administrator's case tests the text "Adm". */
  function RouteForRoleAsWritten(role: string): (route: string)
    ensures role == "Teacher" ==> route == "/mySchedule"
    ensures role == "Manager" ==> route == "/createMain"
    ensures route == "/users" <==> role == "Adm"
    ensures role != "Teacher" && role != "Manager" && role != "Adm" ==> route == "/login"
  {
    if role == "Teacher" then "/mySchedule"
    else if role == "Manager" then "/createMain"
    else if role == "Adm" then "/users"
    else "/login"
  }

  /** The role `switch` with the administrator's case testing the text the
      server sends and the navigation uses, "Administrator". */
  function RouteForRole(role: string): (route: string)
    ensures role == "Teacher" ==> route == "/mySchedule"
    ensures role == "Manager" ==> route == "/createMain"
    ensures role == "Administrator" ==> route == "/users"
    ensures ItemsByRole(role).None? ==> route == "/login"
  {
    if role == "Teacher" then "/mySchedule"
    else if role == "Manager" then "/createMain"
    else if role == "Administrator" then "/users"
    else "/login"
  }

  /** As written, an administrator is sent to the sign-in page, which is not
      among the administrator's links, and a user with the role "Adm" is
      sent to `/users`, which is not among that user's links. */
  lemma AsWrittenLandsOffTheMenu()
    ensures RouteForRoleAsWritten("Administrator") == "/login"
    ensures !HasPath(ItemsForRole("Administrator"), RouteForRoleAsWritten("Administrator"))
    ensures RouteForRoleAsWritten("Adm") == "/users"
    ensures !HasPath(ItemsForRole("Adm"), RouteForRoleAsWritten("Adm"))
  {
    RoleItemsShape("Administrator");
    RoleItemsShape("Adm");
    assert DefaultItems[0].path != "/users" && DefaultItems[1].path != "/users";
  }

  /** Every user lands on a page that the navigation offers to that user:
      a known role on one of its own links, any other role on the sign-in
      link of the defaults. */
  lemma LandingRouteIsOnTheMenu(role: string)
    ensures HasPath(ItemsForRole(role), RouteForRole(role))
  {
    if role == "Teacher" {
      assert TeacherItems[0].path == "/mySchedule";
    } else if role == "Manager" {
      assert ManagerItems[0].path == "/createMain";
    } else if role == "Administrator" {
      assert AdministratorItems[0].path == "/users";
    } else {
      assert DefaultItems[0].path == "/login";
    }
  }

  /** A JavaScript value in an error response: a string; one of the other
      values that `||` treats as false (`null`, `undefined`, `false`, `0`,
      `NaN`); or any other value together with the text `JSON.stringify`
      makes of it. */
  datatype JsValue = Str(s: string) | Falsy | Json(serialized: string)

  /** What a failed request carries: `err.response?.data` (`None` when there
      is no response) and `err.message` ("" when empty). */
  datatype LoginError = LoginError(responseData: Option<JsValue>, message: string)

  /** `msg = err.response?.data || err.message || "Ошибка входа"`, shown as
      it is when a string and serialised otherwise. */
  function LoginErrorMessage(e: LoginError): (r: string)
    ensures e.responseData == Some(Str("")) || e.responseData == Some(Falsy) || e.responseData.None? ==>
      r == (if e.message != "" then e.message else "Ошибка входа")
    ensures e.responseData.Some? && e.responseData.value.Str? && e.responseData.value.s != "" ==> r == e.responseData.value.s
    ensures e.responseData.Some? && e.responseData.value.Json? ==> r == e.responseData.value.serialized
  {
    match e.responseData
    case Some(Str(s)) => OrElse(Some(s), OrElse(Some(e.message), "Ошибка входа"))
    case Some(Json(j)) => j
    case Some(Falsy) => OrElse(Some(e.message), "Ошибка входа")
    case None => OrElse(Some(e.message), "Ошибка входа")
  }

  /** The message is never blank, since `JSON.stringify` of an object never
      gives the empty text. */
  lemma LoginErrorNeverEmpty(e: LoginError)
    requires e.responseData.Some? && e.responseData.value.Json? ==> e.responseData.value.serialized != ""
    ensures LoginErrorMessage(e) != ""
  {
  }

  /** The page's state and the browser storage it writes. */
  class LoginPage {
    var errorMessage: string
    var storedToken: string

    constructor (token: string)
      ensures errorMessage == "" && storedToken == token
    {
      errorMessage := "";
      storedToken := token;
    }

    /** `handleSubmit`: sign in, store the token, and only then request the
        profile and go to the role's landing page by the switch as it is
        written.  `signIn` and `profile` stand for the answers to the two
        requests; `profileToken` is the stored token the profile request
        is sent with. */
    method HandleSubmit(signIn: Result<string, LoginError>, profile: Result<string, LoginError>)
      returns (profileRequested: bool, profileToken: Option<string>, route: Option<string>)
      modifies this`errorMessage, this`storedToken
      ensures profileRequested <==> signIn.Success?
      ensures profileRequested <==> profileToken.Some?
      ensures profileRequested ==> profileToken == Some(signIn.value)
      ensures signIn.Failure? ==>
        storedToken == old(storedToken) && route == None && errorMessage == LoginErrorMessage(signIn.error)
      ensures profileRequested ==> storedToken == signIn.value
      ensures profileRequested && profile.Success? ==>
        route == Some(RouteForRoleAsWritten(profile.value)) && errorMessage == ""
      ensures profileRequested && profile.Failure? ==> route == None && errorMessage == LoginErrorMessage(profile.error)
    {
      errorMessage := "";
      match signIn
      case Failure(e) =>
        errorMessage := LoginErrorMessage(e);
        return false, None, None;
      case Success(token) =>
        storedToken := token;
        // the profile request goes out carrying the token just stored
        profileRequested, profileToken := true, Some(storedToken);
        match profile
        case Failure(e) =>
          errorMessage := LoginErrorMessage(e);
          route := None;
        case Success(role) =>
          route := Some(RouteForRoleAsWritten(role));
    }
  }
}

/** The sign-up form: three fields, a client-side check, the POST that
    creates the account, and the hand-over of the new user to the app. */
module SignupPage {
  import opened Js
  import UserController

  const FillAllMessage := "Please fill in all fields"
  const ShortPasswordMessage := "Password must be at least 3 characters"

  /** The `data` of a successful create: `{ UserID, username, email }`. */
  datatype CreatedUser = CreatedUser(userId: int, username: string, email: string)

  /** The signed-in user the app keeps: `{ id, username, email, memberSince }`. */
  datatype AppUser = AppUser(id: int, username: string, email: string, memberSince: string)

  /** The client-side check, in its order: first that no field is empty,
      then the password length. `None` lets the request go ahead. */
  function SignupError(username: string, email: string, password: string): (r: Option<string>)
    ensures r == Some(FillAllMessage) <==> username == "" || email == "" || password == ""
    ensures r == Some(ShortPasswordMessage) <==> username != "" && email != "" && password != "" && |password| < 3
    ensures r.None? <==> username != "" && email != "" && |password| >= 3
  {
    if username == "" || email == "" || password == "" then Some(FillAllMessage)
    else if |password| < 3 then Some(ShortPasswordMessage)
    else None
  }

  /** An empty password reports the emptiness error, not the length error. */
  lemma EmptyPasswordReportsEmptiness(username: string, email: string)
    ensures SignupError(username, email, "") == Some(FillAllMessage)
  {
  }

  /** A form the client lets through also passes the backend's own check. */
  lemma ClientCheckImpliesBackendCheck(username: string, email: string, password: string)
    requires SignupError(username, email, password).None?
    ensures UserController.HasRequired(UserController.UserRequest(Some(username), Some(email), Some(password)))
  {
  }

  /** The user handed to `onLogin`: identity from the response, the sign-up
      day as `memberSince`. */
  function UserFromResponse(created: CreatedUser, today: string): (u: AppUser)
    ensures u.id == created.userId && u.username == created.username && u.email == created.email
    ensures u.memberSince == today
  {
    AppUser(created.userId, created.username, created.email, today)
  }

  /** The page state. */
  class SignupForm {
    var username: string
    var email: string
    var password: string
    var error: string
    var loading: bool

    constructor ()
      ensures username == "" && email == "" && password == "" && error == "" && !loading
    {
      username := "";
      email := "";
      password := "";
      error := "";
      loading := false;
    }

    /** `handleSubmit`, given the answer of the POST and today's date.
        `requested` tells whether the POST was made; `loggedIn` is the user
        handed to `onLogin`, if any. */
    method HandleSubmit(answer: Result<CreatedUser>, today: string) returns (requested: bool, loggedIn: Option<AppUser>)
      modifies this`error, this`loading
      ensures !loading
      ensures requested <==> SignupError(username, email, password).None?
      ensures !requested ==> loggedIn == None && error == SignupError(username, email, password).value
      ensures requested && answer.Ok? ==> loggedIn == Some(UserFromResponse(answer.value, today)) && error == ""
      ensures requested && answer.Err? ==> loggedIn == None && error == answer.message
    {
      error := "";
      loading := true;
      var check := SignupError(username, email, password);
      if check.Some? {
        error := check.value;
        requested, loggedIn := false, None;
      } else {
        requested := true;
        if answer.Err? {
          error := answer.message;
          loggedIn := None;
        } else {
          loggedIn := Some(UserFromResponse(answer.value, today));
        }
      }
      loading := false;
    }
  }
}

/** The user handlers: sign-up, profile edit, removal, lookup and the
    plain-text login check. */
module UserController {
  import opened Js
  import opened Store
  import opened Http

  /** The request body of create and update. */
  datatype UserRequest = UserRequest(username: Option<string>, email: Option<string>, password: Option<string>)

  /** The request body of login. */
  datatype LoginRequest = LoginRequest(username: Option<string>, password: Option<string>)

  /** A Users row together with its key, as the username lookup returns it. */
  datatype UserRecord = UserRecord(userId: int, user: User)

  const RequiredMessage := "Username, email, and password are required"
  const NotFoundMessage := "User not found"
  const LoginRequiredMessage := "Username and password are required"
  const InvalidLoginMessage := "Invalid username or password"

  /** `username`, `email` and `password` are all truthy. */
  predicate HasRequired(req: UserRequest) {
    StrTruthy(req.username) && StrTruthy(req.email) && StrTruthy(req.password)
  }

  function UserRow(req: UserRequest): User
    requires HasRequired(req)
  {
    User(req.username.value, req.email.value, req.password.value)
  }

  /** GET /users/:id; the row is returned whole, password included. */
  method GetUserById(db: Database, id: int) returns (res: Response)
    ensures id !in db.users ==> res == Failure(404, NotFoundMessage)
    ensures id in db.users ==> res.status == 200 && res.data == UserFound(id, db.users[id])
  {
    var user := db.GetUserById(id);
    if user.None? {
      return Failure(404, NotFoundMessage);
    }
    res := Response(200, "User retrieved successfully", UserFound(id, user.value));
  }

  /** POST /users. A username already in use makes the insert fail, which the
      catch reports as 500. */
  method CreateUser(db: Database, req: UserRequest) returns (res: Response)
    requires db.Valid()
    modifies db`users, db`nextUserId
    ensures db.Valid()
    ensures !HasRequired(req) ==> res == Failure(400, RequiredMessage) && db.users == old(db.users)
    ensures HasRequired(req) && old(db.UsernameInUse(req.username.value)) ==>
      res == Failure(500, "Error creating user") && db.users == old(db.users)
    ensures HasRequired(req) && !old(db.UsernameInUse(req.username.value)) ==>
      && res.status == 201 && res.message == "User created successfully"
      && res.data.UserSummary?
      && res.data == UserSummary(res.data.userId, req.username.value, req.email.value)
      && res.data.userId !in old(db.users)
      && db.users == old(db.users)[res.data.userId := UserRow(req)]
  {
    if !HasRequired(req) {
      return Failure(400, RequiredMessage);
    }
    var userId := db.CreateUser(UserRow(req));
    if userId.None? {
      return Failure(500, "Error creating user");
    }
    res := Response(201, "User created successfully", UserSummary(userId.value, req.username.value, req.email.value));
  }

  /** PUT /users/:id */
  method UpdateUser(db: Database, id: int, req: UserRequest) returns (res: Response)
    requires db.Valid()
    modifies db`users
    ensures db.Valid()
    ensures !HasRequired(req) ==> res == Failure(400, RequiredMessage) && db.users == old(db.users)
    ensures HasRequired(req) && id !in old(db.users) ==> res == Failure(404, NotFoundMessage) && db.users == old(db.users)
    ensures HasRequired(req) && id in old(db.users) && old(db.UsernameHeldByOther(req.username.value, id)) ==>
      res == Failure(500, "Error updating user") && db.users == old(db.users)
    ensures HasRequired(req) && id in old(db.users) && !old(db.UsernameHeldByOther(req.username.value, id)) ==>
      && res == Response(200, "User updated successfully", UserSummary(id, req.username.value, req.email.value))
      && db.users == old(db.users)[id := UserRow(req)]
  {
    if !HasRequired(req) {
      return Failure(400, RequiredMessage);
    }
    var rowsAffected := db.UpdateUser(id, UserRow(req));
    if rowsAffected.None? {
      return Failure(500, "Error updating user");
    }
    if rowsAffected.value == 0 {
      return Failure(404, NotFoundMessage);
    }
    res := Response(200, "User updated successfully", UserSummary(id, req.username.value, req.email.value));
  }

  /** DELETE /users/:id */
  method DeleteUser(db: Database, id: int) returns (res: Response)
    requires db.Valid()
    modifies db`users
    ensures db.Valid()
    ensures id !in old(db.users) ==> res == Failure(404, NotFoundMessage) && db.users == old(db.users)
    ensures id in old(db.users) ==>
      res == Response(200, "User deleted successfully", NoData) && db.users == old(db.users) - {id}
  {
    var rowsAffected := db.DeleteUser(id);
    if rowsAffected == 0 {
      return Failure(404, NotFoundMessage);
    }
    res := Response(200, "User deleted successfully", NoData);
  }

  /** The login decision, given the row the username lookup found (if any). */
  function LoginDecision(req: LoginRequest, found: Option<UserRecord>): (res: Response)
    ensures !StrTruthy(req.username) || !StrTruthy(req.password) ==> res == Failure(400, LoginRequiredMessage)
    ensures StrTruthy(req.username) && StrTruthy(req.password) ==>
      (res.Success() <==> found.Some? && found.value.user.password == req.password.value)
    ensures res.Success() ==>
      res == Response(200, "Login successful",
                      UserSummary(found.value.userId, found.value.user.username, found.value.user.email))
    ensures StrTruthy(req.username) && StrTruthy(req.password) && !res.Success() ==>
      res == Failure(401, InvalidLoginMessage)
  {
    if !StrTruthy(req.username) || !StrTruthy(req.password) then
      Failure(400, LoginRequiredMessage)
    else if found.None? then
      Failure(401, InvalidLoginMessage)
    else if found.value.user.password != req.password.value then
      Failure(401, InvalidLoginMessage)
    else
      Response(200, "Login successful",
               UserSummary(found.value.userId, found.value.user.username, found.value.user.email))
  }

  /** An unknown username and a wrong password get the very same answer. */
  lemma UnknownUserLooksLikeWrongPassword(req: LoginRequest, r: UserRecord)
    requires StrTruthy(req.username) && StrTruthy(req.password)
    requires r.user.password != req.password.value
    ensures LoginDecision(req, None) == LoginDecision(req, Some(r)) == Failure(401, InvalidLoginMessage)
  {
  }

  /** POST /users/login/authenticate */
  method LoginUser(db: Database, req: LoginRequest) returns (res: Response)
    requires db.Valid()
    ensures !StrTruthy(req.username) || !StrTruthy(req.password) ==> res == Failure(400, LoginRequiredMessage)
    ensures StrTruthy(req.username) && StrTruthy(req.password) ==>
      (res.Success() <==>
         exists id :: id in db.users && db.users[id].username == req.username.value
                                     && db.users[id].password == req.password.value)
    ensures res.Success() ==>
      exists id :: id in db.users && db.users[id].username == req.username.value
                                  && res == Response(200, "Login successful",
                                                     UserSummary(id, db.users[id].username, db.users[id].email))
    ensures StrTruthy(req.username) && StrTruthy(req.password) && !res.Success() ==>
      res == Failure(401, InvalidLoginMessage)
  {
    var found: Option<UserRecord> := None;
    if StrTruthy(req.username) && StrTruthy(req.password) {
      var id := db.GetUserByUsername(req.username.value);
      if id.Some? {
        found := Some(UserRecord(id.value, db.users[id.value]));
      }
    }
    res := LoginDecision(req, found);
  }
}

/**
 * backend/src/controllers/authController.js: registration, login, the
 * current user and profile updates. No reply carries a password hash: each
 * response has its own record type, and none of them has that field.
 */
module AuthController {
  import opened Wrappers
  import opened Models
  import opened Responses
  import opened Security
  import opened Associations
  import opened Store
  import opened ErrorHandler
  import opened AuthMiddleware

  /** The fields of a register request (the route's own schema is not part of this model). */
  datatype RegisterBody = RegisterBody(username: string, email: string, password: string, fullName: Option<string>)
  datatype LoginBody = LoginBody(email: string, password: string)
  /** The fields of a profile update; `None` is a field the request leaves out. */
  datatype ProfileBody = ProfileBody(username: Option<string>, email: Option<string>, fullName: Option<string>)

  /** The register reply: id, username, email, full_name and created_at. */
  datatype RegisteredUser = RegisteredUser(id: Id, username: string, email: string, fullName: Option<string>, createdAt: nat)
  /** The login reply's user: id, username, email, full_name and profile_image. */
  datatype LoginUser = LoginUser(id: Id, username: string, email: string, fullName: Option<string>, profileImage: Option<string>)
  datatype LoginData = LoginData(token: string, user: LoginUser)

  function RegisteredView(u: User): RegisteredUser {
    RegisteredUser(u.id, u.username, u.email, u.fullName, u.createdAt)
  }

  function LoginView(u: User): LoginUser {
    LoginUser(u.id, u.username, u.email, u.fullName, u.profileImage)
  }

  /** The row `User.create` stores for a registration: the hash, never the password. */
  function NewUser(id: Id, body: RegisterBody, hasher: Hasher, salt: string, now: nat): User {
    User(id, body.username, body.email, hasher.hash(body.password, salt), body.fullName, None, now)
  }

  /** `register`: a taken email is refused; otherwise a user row is added with the next id. */
  method Register(db: Database, body: RegisterBody, hasher: Hasher, salt: string) returns (r: Reply<RegisteredUser>)
    requires db.Valid()
    modifies db`users, db`nextUserId, db`clock
    ensures db.Valid()
    ensures EmailTaken(old(db.users), body.email) ==>
      && r == ErrorResponse(400, "Email already registered")
      && db.users == old(db.users) && db.nextUserId == old(db.nextUserId) && db.clock == old(db.clock)
    ensures !EmailTaken(old(db.users), body.email) ==>
      var u := NewUser(old(db.nextUserId), body, hasher, salt, old(db.clock));
      && old(db.nextUserId) !in old(db.users)
      && db.users == old(db.users)[u.id := u]
      && db.nextUserId == old(db.nextUserId) + 1 && db.clock == old(db.clock) + 1
      && r == SuccessResponse(201, "User registered successfully", Some(RegisteredView(u)))
  {
    if EmailTaken(db.users, body.email) {
      return ErrorResponse(400, "Email already registered");
    }
    var u := NewUser(db.nextUserId, body, hasher, salt, db.clock);
    ghost var t := db.Snapshot();
    AddUserKeepsCoherent(t, u);
    db.users := db.users[u.id := u];
    db.nextUserId := db.nextUserId + 1;
    db.clock := db.clock + 1;
    assert db.Snapshot() == t.(users := t.users[u.id := u], nextUserId := t.nextUserId + 1, clock := t.clock + 1);
    r := SuccessResponse(201, "User registered successfully", Some(RegisteredView(u)));
  }

  /** A new user under the next id with a fresh email keeps the database coherent. */
  lemma AddUserKeepsCoherent(t: Tables, u: User)
    requires Coherent(t) && u.id == t.nextUserId && u.createdAt == t.clock && !EmailTaken(t.users, u.email)
    ensures Coherent(t.(users := t.users[u.id := u], nextUserId := t.nextUserId + 1, clock := t.clock + 1))
  {
    var users := t.users[u.id := u];
    var t' := t.(users := users, nextUserId := t.nextUserId + 1, clock := t.clock + 1);
    assert UsersWellFormed(t'.users, t'.nextUserId, t'.clock) by {
      UsersAdd(t.users, t.nextUserId, t.clock, u);
    }
    assert TripsWellFormed(t'.trips, t'.users, t'.nextTripId, t'.clock) by {
      TripsGrow(t.trips, t.users, users, t.nextTripId, t.nextTripId, t.clock, t.clock + 1);
    }
    assert ExpensesWellFormed(t'.expenses, t'.trips, t'.nextExpenseId, t'.clock) by {
      ExpensesGrow(t.expenses, t.trips, t.trips, t.nextExpenseId, t.nextExpenseId, t.clock, t.clock + 1);
    }
    assert DaysWellFormed(t'.days, t'.trips, t'.nextDayId, t'.clock) by {
      DaysGrow(t.days, t.trips, t.trips, t.nextDayId, t.nextDayId, t.clock, t.clock + 1);
    }
    assert ImagesWellFormed(t'.images, t'.trips, t'.users, t'.nextImageId, t'.clock) by {
      ImagesGrow(t.images, t.trips, t.trips, t.users, users, t.nextImageId, t.nextImageId, t.clock, t.clock + 1);
    }
    assert CommentsWellFormed(t'.comments, t'.trips, t'.users, t'.images, t'.nextCommentId, t'.clock) by {
      CommentsGrow(t.comments, t.trips, t.trips, t.users, users, t.images, t.images,
                   t.nextCommentId, t.nextCommentId, t.clock, t.clock + 1);
    }
  }

  /** Rewriting a user row in place, with an email no other row has, keeps the database coherent. */
  lemma ReplaceUserKeepsCoherent(t: Tables, u: User)
    requires Coherent(t) && u.id in t.users && u.createdAt == t.users[u.id].createdAt
    requires !EmailTaken(t.users - {u.id}, u.email)
    ensures Coherent(t.(users := t.users[u.id := u]))
  {
    var users := t.users[u.id := u];
    UsersReplace(t.users, t.nextUserId, t.clock, u);
    TripsGrow(t.trips, t.users, users, t.nextTripId, t.nextTripId, t.clock, t.clock);
    ImagesGrow(t.images, t.trips, t.trips, t.users, users, t.nextImageId, t.nextImageId, t.clock, t.clock);
    CommentsGrow(t.comments, t.trips, t.trips, t.users, users, t.images, t.images,
                 t.nextCommentId, t.nextCommentId, t.clock, t.clock);
  }

  /** `User.findOne({where: {email}})`: the id of the one user with this email. */
  function FindByEmail(users: map<Id, User>, email: string): (r: Option<Id>)
    requires UniqueEmails(users)
    ensures r.Some? <==> EmailTaken(users, email)
    ensures r.Some? ==> r.value in users && users[r.value].email == email
  {
    if EmailTaken(users, email) then
      var k :| k in users && users[k].email == email;
      Some(k)
    else
      None
  }

  /** The claims `login` signs: id, email and username of the matched row. */
  function ClaimsOf(u: User): Claims {
    Claims(u.id, u.email, u.username)
  }

  /**
   * `login`. An unknown email and a wrong password give the same reply; a
   * match issues a token over the matched row's claims.
   */
  function Login(users: map<Id, User>, body: LoginBody, hasher: Hasher, tokens: TokenService): (r: Reply<LoginData>)
    requires UniqueEmails(users)
    ensures !r.Success() ==> r == ErrorResponse(401, "Invalid email or password")
    ensures r.Success() <==>
      exists k :: k in users && users[k].email == body.email && hasher.compare(body.password, users[k].passwordHash)
    ensures r.Success() ==>
      r.status == 200 && r.Message() == "Login successful" &&
      exists k :: k in users && users[k].email == body.email &&
        r.body.data == Some(LoginData(tokens.sign(ClaimsOf(users[k])), LoginView(users[k])))
  {
    match FindByEmail(users, body.email)
    case None => ErrorResponse(401, "Invalid email or password")
    case Some(k) =>
      var u := users[k];
      if !hasher.compare(body.password, u.passwordHash) then
        ErrorResponse(401, "Invalid email or password")
      else
        SuccessResponse(200, "Login successful", Some(LoginData(tokens.sign(ClaimsOf(u)), LoginView(u))))
  }

  /** A registered user logs in with the password they registered with. */
  lemma RegisteredUserCanLogIn(users: map<Id, User>, k: Id, password: string, salt: string, hasher: Hasher, tokens: TokenService)
    requires UniqueEmails(users) && HashSound(hasher)
    requires k in users && users[k].passwordHash == hasher.hash(password, salt)
    ensures Login(users, LoginBody(users[k].email, password), hasher, tokens).Success()
  {
    assert hasher.compare(password, hasher.hash(password, salt));
  }

  /** The token a login issues opens the gate, and the principal is the row that logged in. */
  lemma LoginTokenOpensGate(users: map<Id, User>, body: LoginBody, hasher: Hasher, tokens: TokenService)
    requires UniqueEmails(users) && KeyedById(users) && TokenSound(tokens)
    requires Login(users, body, hasher, tokens).Success()
    ensures var data := Login(users, body, hasher, tokens).body.data.value;
      && data.user.email == body.email
      && Authenticate(users, Some(Bearer + data.token), tokens, false) == Proceed(PublicView(users[data.user.id]))
  {
    var k :| k in users && users[k].email == body.email &&
      Login(users, body, hasher, tokens).body.data == Some(LoginData(tokens.sign(ClaimsOf(users[k])), LoginView(users[k])));
    IssuedTokenPasses(users, tokens, ClaimsOf(users[k]));
  }

  /** `getCurrentUser`: the principal the gate attached, which has no password hash. */
  function GetCurrentUser(principal: PublicUser): (r: Reply<PublicUser>)
    ensures r.Success() && r.status == 200 && r.Message() == "User retrieved successfully"
    ensures r.body.data == Some(principal)
  {
    SuccessResponse(200, "User retrieved successfully", Some(principal))
  }

  /** The request changes the email to one that differs from the principal's (an empty one is skipped). */
  predicate ChangesEmail(principal: PublicUser, body: ProfileBody) {
    body.email.Some? && body.email.value != "" && body.email.value != principal.email
  }

  /** `User.update({username, email, full_name})`: fields left out stay as they were. */
  function ApplyProfile(u: User, body: ProfileBody): (v: User)
    ensures v.id == u.id && v.passwordHash == u.passwordHash && v.profileImage == u.profileImage
    ensures v.createdAt == u.createdAt
    ensures v.username == (if body.username.Some? then body.username.value else u.username)
    ensures v.email == (if body.email.Some? then body.email.value else u.email)
    ensures v.fullName == (if body.fullName.Some? then body.fullName else u.fullName)
  {
    u.(username := body.username.GetOr(u.username),
       email := body.email.GetOr(u.email),
       fullName := if body.fullName.Some? then body.fullName else u.fullName)
  }

  /**
   * The body gives no column to set. `User.update` drops undefined values,
   * and with nothing left to write it issues no query and reports `[0]`.
   */
  predicate SetsNothing(body: ProfileBody) {
    body.username.None? && body.email.None? && body.fullName.None?
  }

  /**
   * `updateProfile`. A new email held by someone else is refused before
   * anything is written. `[updated]` is 0, so 404, both when the body sets
   * no column and when no row for the principal exists. The users table
   * also keeps emails unique on its own, which only an empty email (skipped
   * by the first check) can run into.
   */
  method UpdateProfile(db: Database, principal: PublicUser, body: ProfileBody) returns (r: Reply<PublicUser>)
    requires db.Valid()
    requires principal.id in db.users ==> principal == PublicView(db.users[principal.id])
    modifies db`users
    ensures db.Valid()
    ensures ChangesEmail(principal, body) && EmailTaken(old(db.users), body.email.value) ==>
      r == ErrorResponse(400, "Email already in use") && db.users == old(db.users)
    ensures !(ChangesEmail(principal, body) && EmailTaken(old(db.users), body.email.value)) ==>
      if SetsNothing(body) || principal.id !in old(db.users) then
        r == ErrorResponse(404, "User not found") && db.users == old(db.users)
      else
        var u := ApplyProfile(old(db.users)[principal.id], body);
        if EmailTaken(old(db.users) - {principal.id}, u.email) then
          r == HandleError(UniqueConstraintError) && db.users == old(db.users)
        else
          db.users == old(db.users)[principal.id := u] &&
          r == SuccessResponse(200, "Profile updated successfully", Some(PublicView(u)))
  {
    if ChangesEmail(principal, body) && EmailTaken(db.users, body.email.value) {
      return ErrorResponse(400, "Email already in use");
    }
    if SetsNothing(body) || principal.id !in db.users {
      return ErrorResponse(404, "User not found");
    }
    var u := ApplyProfile(db.users[principal.id], body);
    if EmailTaken(db.users - {principal.id}, u.email) {
      return HandleError(UniqueConstraintError);
    }
    ghost var t := db.Snapshot();
    ReplaceUserKeepsCoherent(t, u);
    db.users := db.users[principal.id := u];
    assert db.Snapshot() == t.(users := t.users[u.id := u]);
    r := SuccessResponse(200, "Profile updated successfully", Some(PublicView(u)));
  }
}

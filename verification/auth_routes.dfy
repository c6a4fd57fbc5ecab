/**
  The account routes. Registration checks its three fields, then the email's
  uniqueness, then stores a user whose password is kept only as its hash. Login
  answers with the same message whether the email is unknown or the password is wrong,
  and only reads the users.

  A field missing from the JSON body is passed as '': both fail the same `!field` check.
*/
module AuthRoutes {
  import opened Common

  datatype User = User(id: string, username: string, email: string, password: string)

  /** The body of a successful login. */
  datatype LoginReply = LoginReply(token: string, username: string)

  const FieldsMessage := "All fields are required"
  const ExistsMessage := "User already exists"
  const CreatedMessage := "User created successfully"
  const RegisterErrorMessage := "Server error during registration"
  const LoginFieldsMessage := "Email and password required"
  const InvalidMessage := "Invalid credentials"

  /** `User.findOne({ email })`: the first user with this email. */
  function FindByEmail(users: seq<User>, email: string): (r: Option<nat>)
    ensures r.Some? ==> r.value < |users| && users[r.value].email == email
    ensures r.Some? ==> forall j :: 0 <= j < r.value ==> users[j].email != email
    ensures r.None? <==> forall j :: 0 <= j < |users| ==> users[j].email != email
  {
    if users == [] then None
    else if users[0].email == email then Some(0)
    else match FindByEmail(users[1..], email)
      case None => None
      case Some(i) => Some(i + 1)
  }

  /** No two users share an email. */
  predicate UniqueEmails(users: seq<User>)
  {
    forall i, j :: 0 <= i < j < |users| ==> users[i].email != users[j].email
  }

  /** No two users share an `_id`. */
  predicate UniqueUserIds(users: seq<User>)
  {
    forall i, j :: 0 <= i < j < |users| ==> users[i].id != users[j].id
  }

  predicate IdInUse(users: seq<User>, id: string)
  {
    exists i :: 0 <= i < |users| && users[i].id == id
  }

  /** The user collection, with the password hash and the token signer it is configured with. */
  class UserStore {
    var users: seq<User>
    /** `bcrypt.hash(password, 10)`; `bcrypt.compare(p, h)` holds exactly when `hash(p) == h`. */
    const hash: string -> string
    /** `jwt.sign({ id }, secret, { expiresIn: '1d' })` for the configured secret. */
    const sign: string -> string

    /** Emails and ids are unique. */
    ghost predicate Valid()
      reads this
    {
      UniqueEmails(users) && UniqueUserIds(users)
    }

    constructor (hash: string -> string, sign: string -> string)
      ensures Valid() && users == []
      ensures this.hash == hash && this.sign == sign
    {
      this.hash := hash;
      this.sign := sign;
      users := [];
    }

    /**
      POST /register: 400 when a field is empty, checked before the email; 400 when the
      email is taken; otherwise one user is added with the hash of the password, never
      the password itself. A save that fails on a taken id answers 500. Failures store nothing.
    */
    method Register(username: string, email: string, password: string, freshId: string)
      returns (r: Reply<string>)
      requires Valid()
      modifies this
      ensures Valid()
      ensures r.Fail? ==> users == old(users)
      ensures username == "" || email == "" || password == "" ==> r == Fail(400, FieldsMessage)
      ensures username != "" && email != "" && password != "" && FindByEmail(old(users), email).Some? ==>
        r == Fail(400, ExistsMessage)
      ensures r.Ok? <==>
        username != "" && email != "" && password != ""
        && FindByEmail(old(users), email).None? && !IdInUse(old(users), freshId)
      ensures r.Fail? && r.code == 500 <==>
        username != "" && email != "" && password != ""
        && FindByEmail(old(users), email).None? && IdInUse(old(users), freshId)
      ensures r.Fail? && r.code == 500 ==> r.message == RegisterErrorMessage
      ensures r.Ok? ==>
        r == Ok(201, CreatedMessage) && users == old(users) + [User(freshId, username, email, hash(password))]
    {
      if username == "" || email == "" || password == "" {
        return Fail(400, FieldsMessage);
      }
      if FindByEmail(users, email).Some? {
        return Fail(400, ExistsMessage);
      }
      var hashed := hash(password);
      if IdInUse(users, freshId) {
        return Fail(500, RegisterErrorMessage);
      }
      users := users + [User(freshId, username, email, hashed)];
      r := Ok(201, CreatedMessage);
    }

    /**
      POST /login: 400 when a field is empty; otherwise the same 400 'Invalid credentials'
      for an unknown email and for a wrong password; on success a token signed for the
      user's id and the user's name.
    */
    method Login(email: string, password: string) returns (r: Reply<LoginReply>)
      ensures email == "" || password == "" ==> r == Fail(400, LoginFieldsMessage)
      ensures email != "" && password != "" && r.Fail? ==> r == Fail(400, InvalidMessage)
      ensures r.Ok? <==>
        email != "" && password != "" && FindByEmail(users, email).Some?
        && hash(password) == users[FindByEmail(users, email).value].password
      ensures r.Ok? ==>
        var u := users[FindByEmail(users, email).value];
        r == Ok(200, LoginReply(sign(u.id), u.username))
    {
      if email == "" || password == "" {
        return Fail(400, LoginFieldsMessage);
      }
      var found := FindByEmail(users, email);
      if found.None? {
        return Fail(400, InvalidMessage);
      }
      var user := users[found.value];
      if hash(password) != user.password {
        return Fail(400, InvalidMessage);
      }
      r := Ok(200, LoginReply(sign(user.id), user.username));
    }
  }

  /** Once an email has registered, registering it again is refused and stores nothing. */
  method RegisterTwice(store: UserStore, username: string, email: string, password: string, id1: string, id2: string)
    returns (first: Reply<string>, second: Reply<string>)
    requires store.Valid()
    modifies store
    ensures store.Valid()
    ensures first.Ok? ==> second == Fail(400, ExistsMessage) && store.users == old(store.users) + [User(id1, username, email, store.hash(password))]
  {
    first := store.Register(username, email, password, id1);
    ghost var afterFirst := store.users;
    second := store.Register(username, email, password, id2);
    if first.Ok? {
      assert afterFirst[|afterFirst| - 1].email == email;
    }
  }
}

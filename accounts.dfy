/** Registration and login checks of `serializers.py` over the user table.
    Password hashing is left abstract: a user record keeps the password it
    was registered with, and `authenticate` is an input to login. */
module Accounts {
  import opened Optional

  /** The primary key of the user table, shared by every module that
      refers to a user. */
  type UserId = int

  datatype User = User(username: string, email: string, firstName: string, lastName: string,
                       password: string, isActive: bool)

  type Users = map<UserId, User>

  /** The user table's `username` column is unique. */
  ghost predicate UniqueUsernames(users: Users) {
    forall a, b :: a in users && b in users && users[a].username == users[b].username ==> a == b
  }

  /** `User.objects.filter(username=name).exists()` */
  predicate UsernameTaken(users: Users, name: string) {
    exists id :: id in users && users[id].username == name
  }

  datatype RegisterError = EmailTaken | PasswordMismatch | MissingField(name: string)

  /** `RegisterSerializer.validate`. Field validation has already required
      `email`, `password` and `password2`. The e-mail check comes first, so
      a taken e-mail is what is reported even when the passwords differ. */
  function ValidateRegistration(users: Users, attrs: map<string, string>): (r: Result<map<string, string>, RegisterError>)
    requires "email" in attrs && "password" in attrs && "password2" in attrs
    ensures r.Ok? <==> !UsernameTaken(users, attrs["email"]) && attrs["password"] == attrs["password2"]
    ensures r.Ok? ==> r.value == attrs
    ensures UsernameTaken(users, attrs["email"]) ==> r == Err(EmailTaken)
    ensures r == Err(PasswordMismatch) <==> !UsernameTaken(users, attrs["email"]) && attrs["password"] != attrs["password2"]
  {
    if UsernameTaken(users, attrs["email"]) then Err(EmailTaken)
    else if attrs["password"] != attrs["password2"] then Err(PasswordMismatch)
    else Ok(attrs)
  }

  datatype LoginError = InvalidCredentials | InactiveAccount

  /** The validated login data with the authenticated user attached. */
  datatype LoginData = LoginData(attrs: map<string, string>, user: UserId)

  /** `LoginSerializer.validate`. `authenticated` is what
      `authenticate(username=email, password=password)` returned; the
      backend only returns a user whose username is the given e-mail. */
  function ValidateLogin(users: Users, attrs: map<string, string>, authenticated: Option<UserId>): (r: Result<LoginData, LoginError>)
    requires "email" in attrs
    requires authenticated.Some? ==> authenticated.value in users && users[authenticated.value].username == attrs["email"]
    ensures authenticated.None? ==> r == Err(InvalidCredentials)
    ensures r == Err(InactiveAccount) <==> authenticated.Some? && !users[authenticated.value].isActive
    ensures r.Ok? <==> authenticated.Some? && users[authenticated.value].isActive
    ensures r.Ok? ==> r.value.attrs == attrs && r.value.user in users && users[r.value.user].username == attrs["email"]
  {
    if authenticated.None? then Err(InvalidCredentials)
    else if !users[authenticated.value].isActive then Err(InactiveAccount)
    else Ok(LoginData(attrs, authenticated.value))
  }

  /** With unique usernames, the only user that login can attach for an
      e-mail is the one registered under it. */
  lemma LoginFindsRegisteredUser(users: Users, attrs: map<string, string>, authenticated: Option<UserId>, registered: UserId)
    requires UniqueUsernames(users)
    requires "email" in attrs
    requires authenticated.Some? ==> authenticated.value in users && users[authenticated.value].username == attrs["email"]
    requires registered in users && users[registered].username == attrs["email"]
    ensures var r := ValidateLogin(users, attrs, authenticated);
      r.Ok? ==> r.value.user == registered
  {
  }

  class UserTable {
    var users: Users
    var nextId: UserId

    ghost predicate Valid()
      reads this
    {
      (forall id :: id in users ==> id < nextId) && UniqueUsernames(users)
    }

    constructor (users: Users, nextId: UserId)
      requires forall id :: id in users ==> id < nextId
      requires UniqueUsernames(users)
      ensures Valid() && this.users == users && this.nextId == nextId
    {
      this.users := users;
      this.nextId := nextId;
    }

    /** `RegisterSerializer.create` on validated data. The duplicate check
        is repeated; `password2` is dropped; a missing `first_name` or
        `last_name` raises `KeyError`. The new user's username is its
        e-mail, and it is active. */
    method Create(data: map<string, string>) returns (r: Result<UserId, RegisterError>)
      requires Valid()
      requires "email" in data && "password" in data && "password2" in data
      modifies this
      ensures Valid()
      ensures UsernameTaken(old(users), data["email"]) ==> r == Err(EmailTaken)
      ensures !UsernameTaken(old(users), data["email"]) && !("first_name" in data && "last_name" in data) ==>
        r.Err? && r.error.MissingField?
      ensures r.Ok? <==> !UsernameTaken(old(users), data["email"]) && "first_name" in data && "last_name" in data
      ensures r.Ok? ==>
        && r.value !in old(users)
        && users == old(users)[r.value := User(data["email"], data["email"], data["first_name"], data["last_name"], data["password"], true)]
        && forall id :: id in users && users[id].username == data["email"] ==> id == r.value
      ensures r.Err? ==> users == old(users) && nextId == old(nextId)
    {
      var email := data["email"];
      if UsernameTaken(users, email) {
        return Err(EmailTaken);
      }
      var fields := data - {"password2"};
      if "first_name" !in fields {
        return Err(MissingField("first_name"));
      }
      if "last_name" !in fields {
        return Err(MissingField("last_name"));
      }
      var user := User(email, email, fields["first_name"], fields["last_name"], fields["password"], true);
      var id := nextId;
      users := users[id := user];
      nextId := nextId + 1;
      r := Ok(id);
    }
  }
}

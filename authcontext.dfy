/** The session held by the authentication context: the signed-in user (or
    none), the loading flag of the first render and the points balance, with
    the operations the provider hands to every page. Sign-in and sign-up are
    mock operations: no credential is checked. */
module AuthContext {
  import opened Common

  /** `user_metadata`: free-form string fields; `role` decides admin access. */
  type Metadata = map<string, string>

  datatype User = User(id: string, email: string, metadata: Metadata, aud: string, createdAt: string)

  const AdminEmail: string := "admin@example.com"
  const MockCreatedAt: string := "2024-01-01T00:00:00Z"
  const MissingProviderError: string := "useAuth must be used within an AuthProvider"

  /** `user?.user_metadata?.role`. */
  function RoleOf(user: Option<User>): (r: Option<string>)
    ensures r.Some? <==> user.Some? && "role" in user.value.metadata
  {
    match user
    case None => None
    case Some(u) => if "role" in u.metadata then Some(u.metadata["role"]) else None
  }

  /** The development user installed when the provider mounts: an ordinary
      user, who shares the id of a non-admin mock sign-in but carries the
      full profile (phone, pincode, landmark) that a sign-in leaves out. */
  function MountUser(): (u: User)
    ensures u.id == SignInUser(u.email).id && u.email != AdminEmail && u.aud == "authenticated"
    ensures RoleOf(Some(u)) == Some("user")
    ensures "phone" in u.metadata && "phone" !in SignInUser(u.email).metadata
  {
    User("1", "user@example.com",
         map["name" := "Riya", "phone" := "+91 9876543210", "pincode" := "560001",
             "landmark" := "Near City Center", "role" := "user"],
         "authenticated", MockCreatedAt)
  }

  /** The user a mock sign-in fabricates from the e-mail alone. */
  function SignInUser(email: string): (u: User)
    ensures u.email == email && u.aud == "authenticated"
    ensures u.id == (if email == AdminEmail then "2" else "1")
    ensures RoleOf(Some(u)) == Some(if email == AdminEmail then "admin" else "user")
  {
    var admin := email == AdminEmail;
    User(if admin then "2" else "1", email,
         map["name" := (if admin then "Admin User" else "John Doe"),
             "role" := (if admin then "admin" else "user")],
         "authenticated", MockCreatedAt)
  }

  /** The balance a mock sign-in starts from. */
  function SignInPoints(email: string): (p: int)
    ensures p == 0 || p == 150
    ensures p == 0 <==> email == AdminEmail
  {
    if email == AdminEmail then 0 else 150
  }

  class AuthProvider {
    var user: Option<User>
    var loading: bool
    var userPoints: Num

    /** The state of the first render, before the mount effect has run. */
    constructor ()
      ensures user == None && loading && userPoints == Int(0)
    {
      user := None;
      loading := true;
      userPoints := Int(0);
    }

    /** The mount effect: installs the development user with 150 points and
        ends loading. */
    method Mount()
      modifies this
      ensures user == Some(MountUser()) && userPoints == Int(150) && !loading
      ensures RoleOf(user) == Some("user")
    {
      user := Some(MountUser());
      userPoints := Int(150);
      loading := false;
    }

    /** Mock sign-in: the new state depends on the e-mail only. */
    method SignIn(email: string, password: string)
      modifies this
      ensures user == Some(SignInUser(email)) && userPoints == Int(SignInPoints(email))
      ensures loading == old(loading)
    {
      user := Some(SignInUser(email));
      userPoints := Int(SignInPoints(email));
    }

    /** Mock sign-up: stores userData unchanged as the metadata. The id and
        creation time come from the clock and are passed in. */
    method SignUp(email: string, password: string, userData: Metadata, clockId: string, clockIso: string)
      modifies this
      ensures user == Some(User(clockId, email, userData, "authenticated", clockIso))
      ensures userPoints == Int(0) && loading == old(loading)
    {
      user := Some(User(clockId, email, userData, "authenticated", clockIso));
      userPoints := Int(0);
    }

    method SignOut()
      modifies this
      ensures user == None && userPoints == Int(0) && loading == old(loading)
    {
      user := None;
      userPoints := Int(0);
    }

    /** Adds a signed amount to the balance; there is no lower bound. */
    method AddPoints(points: Num)
      modifies this`userPoints
      ensures userPoints == old(userPoints).Plus(points)
      ensures old(userPoints).Int? && points.Int? ==> userPoints == Int(old(userPoints).n + points.n)
    {
      userPoints := userPoints.Plus(points);
    }
  }

  /** `useAuth`: the context value, or the error thrown outside a provider. */
  function UseAuth(context: Option<AuthProvider>): (r: Result<AuthProvider, string>)
    ensures r.Success? <==> context.Some?
    ensures r.Success? ==> r.value == context.value
    ensures r.Failure? ==> r.error == MissingProviderError
  {
    match context
    case None => Failure(MissingProviderError)
    case Some(p) => Success(p)
  }

  /** Adding a negative amount can take the balance below zero. */
  lemma AddPointsCanGoNegative(balance: int, points: int)
    requires points < -balance
    ensures Int(balance).Plus(Int(points)).n < 0
  {
  }

  /** Once the balance is NaN every later addition leaves it NaN and no
      comparison with a cost holds. */
  lemma NaNBalanceIsAbsorbing(points: Num, cost: int)
    ensures NaN.Plus(points) == NaN
    ensures !NaN.AtLeast(cost)
  {
  }

  /** After the mount effect a sign-in as the administrator gives the admin
      role; any other e-mail gives the user role. */
  method SessionScenario(email: string) returns (role: Option<string>, points: Num)
    ensures email == AdminEmail ==> role == Some("admin") && points == Int(0)
    ensures email != AdminEmail ==> role == Some("user") && points == Int(150)
  {
    var auth := new AuthProvider();
    auth.Mount();
    auth.AddPoints(Int(-40));
    auth.SignIn(email, "any password");
    role, points := RoleOf(auth.user), auth.userPoints;
  }
}

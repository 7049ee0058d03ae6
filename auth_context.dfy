// The client's mock authentication provider: a list of registered users
// kept in the browser, the current token and the current user. Login
// checks the registered users first and then three demo accounts; the
// password is never looked at.

module AuthContext {
  import opened Common

  /** A user as the provider stores it: an id, a username, a role (missing
      when the registration form had none) and the other form fields
      (name, email, date of birth, ...), kept as they were entered. */
  datatype Account = Account(id: int, username: string, role: Option<string>, details: map<string, string>)

  /** The registration form's values. */
  datatype UserData = UserData(username: string, role: Option<string>, details: map<string, string>)

  const InvalidLogin := "Invalid username or password"
  const UsernameTaken := "Username already exists"

  /** role || 'patient': a missing or empty role is the patient role. */
  function RoleOrPatient(role: Option<string>): (r: string)
    ensures r != ""
    ensures role.Some? && role.value != "" ==> r == role.value
    ensures role.None? || role.value == "" ==> r == "patient"
  {
    if role.Some? && role.value != "" then role.value else "patient"
  }

  const DemoPatient := Account(1, "patient", Some("patient"),
                               map["name" := "John Doe", "email" := "patient@example.com"])
  const DemoDoctor := Account(2, "doctor", Some("doctor"),
                              map["name" := "Dr. Sarah Johnson", "email" := "doctor@example.com"])
  const DemoHospital := Account(3, "hospital", Some("hospital"),
                                map["name" := "City General Hospital", "email" := "hospital@example.com"])

  /** The index of the first registered user with this username
      (|users| when there is none). */
  function FindUser(users: seq<Account>, username: string): (k: nat)
    ensures k <= |users|
    ensures k < |users| ==> users[k].username == username
    ensures forall i :: 0 <= i < k ==> users[i].username != username
  {
    FirstWhere(users, (u: Account) => u.username == username)
  }

  /** The user a login as `username` signs in: the first registered user
      of that name, with its role defaulted, and otherwise the demo account
      of that name. */
  function LoginTarget(users: seq<Account>, username: string): (r: Option<Account>)
    ensures r.Some? ==> r.value.role.Some? && r.value.role.value != ""
    ensures r.Some? <==> FindUser(users, username) < |users| || username in {"patient", "doctor", "hospital"}
  {
    var k := FindUser(users, username);
    if k < |users| then Some(users[k].(role := Some(RoleOrPatient(users[k].role))))
    else if username == "patient" then Some(DemoPatient)
    else if username == "doctor" then Some(DemoDoctor)
    else if username == "hospital" then Some(DemoHospital)
    else None
  }

  /** A registered user named like a demo account shadows it. */
  lemma RegisteredUsersShadowDemos(users: seq<Account>, i: nat)
    requires i < |users|
    requires forall j :: 0 <= j < i ==> users[j].username != users[i].username
    ensures LoginTarget(users, users[i].username) ==
              Some(users[i].(role := Some(RoleOrPatient(users[i].role))))
  {
    var k := FindUser(users, users[i].username);
    assert k <= i;
  }

  /** The ids of the registered users are 3, 4, 5, ... in order. */
  predicate IdsFromThree(users: seq<Account>) {
    forall i :: 0 <= i < |users| ==> users[i].id == i + 3
  }

  predicate UniqueUsernames(users: seq<Account>) {
    forall i, j :: 0 <= i < j < |users| ==> users[i].username != users[j].username
  }

  /** The first registered user gets id 3, the demo hospital's id. */
  lemma FirstRegisteredIdIsHospitalId(users: seq<Account>)
    requires IdsFromThree(users) && |users| >= 1
    ensures users[0].id == DemoHospital.id
  {
  }

  class AuthProvider {
    var registeredUsers: seq<Account>
    var token: Option<string>
    var user: Option<Account>
    var error: Option<string>
    /** The path the provider last navigated to. */
    var location: string

    /** The provider as it mounts: the registered users and the token read
        back from the browser's storage (an empty stored token counts as
        none), no user and no error. */
    constructor(storedUsers: seq<Account>, storedToken: Option<string>, path: string)
      ensures registeredUsers == storedUsers
      ensures token == (if storedToken.Some? && storedToken.value != "" then storedToken else None)
      ensures user.None? && error.None? && location == path
    {
      registeredUsers := storedUsers;
      token := if storedToken.Some? && storedToken.value != "" then storedToken else None;
      user := None;
      error := None;
      location := path;
    }

    /** isAuthenticated: !!token */
    predicate IsAuthenticated()
      reads this
    {
      token.Some? && token.value != ""
    }

    /** The mount effect: a user stored by an earlier login becomes the
        current user. */
    method RestoreUser(mockUser: Option<Account>)
      modifies this
      ensures user == (if mockUser.Some? then mockUser else old(user))
      ensures registeredUsers == old(registeredUsers) && token == old(token)
      ensures error == old(error) && location == old(location)
    {
      if mockUser.Some? {
        user := mockUser;
      }
    }

    /** login: succeeds exactly when a registered or demo user has this
        name, whatever the password. On success the token is
        "mock-token-" followed by the user's role, the user is signed in
        and the provider goes to that role's page; on failure the error is
        set and the token and user stay as they were. */
    method Login(username: string, password: string) returns (ok: bool)
      modifies this
      ensures registeredUsers == old(registeredUsers)
      ensures ok <==> LoginTarget(old(registeredUsers), username).Some?
      ensures ok ==> user == LoginTarget(old(registeredUsers), username)
      ensures ok ==> token == Some("mock-token-" + user.value.role.value)
      ensures ok ==> error.None? && location == "/" + user.value.role.value && IsAuthenticated()
      ensures !ok ==> token == old(token) && user == old(user) && location == old(location)
      ensures !ok ==> error == Some(InvalidLogin)
    {
      error := None;
      var k := FindUser(registeredUsers, username);
      var found: Option<Account> := None;
      if k < |registeredUsers| {
        var registered := registeredUsers[k];
        found := Some(registered.(role := Some(RoleOrPatient(registered.role))));
      } else if username == "patient" {
        found := Some(DemoPatient);
      } else if username == "doctor" {
        found := Some(DemoDoctor);
      } else if username == "hospital" {
        found := Some(DemoHospital);
      }
      if found.Some? {
        var role := found.value.role.value;
        token := Some("mock-token-" + role);
        user := found;
        location := "/" + role;
        return true;
      }
      error := Some(InvalidLogin);
      return false;
    }

    /** register: refuses a username that is already registered and leaves
        the list as it was; otherwise appends one user whose id is the
        list's old length plus 3 and whose role is the given one or
        'patient', and goes to the login page. */
    method Register(data: UserData) returns (ok: bool)
      modifies this
      ensures ok <==> FindUser(old(registeredUsers), data.username) == |old(registeredUsers)|
      ensures !ok ==> registeredUsers == old(registeredUsers) && error == Some(UsernameTaken) &&
                      location == old(location)
      ensures ok ==> registeredUsers == old(registeredUsers) +
                       [Account(|old(registeredUsers)| + 3, data.username,
                                Some(RoleOrPatient(data.role)), data.details)]
      ensures ok ==> error.None? && location == "/login"
      ensures token == old(token) && user == old(user)
      ensures IdsFromThree(old(registeredUsers)) ==> IdsFromThree(registeredUsers)
      ensures UniqueUsernames(old(registeredUsers)) ==> UniqueUsernames(registeredUsers)
    {
      error := None;
      if FindUser(registeredUsers, data.username) < |registeredUsers| {
        error := Some(UsernameTaken);
        return false;
      }
      var newUser := Account(|registeredUsers| + 3, data.username, Some(RoleOrPatient(data.role)), data.details);
      registeredUsers := registeredUsers + [newUser];
      location := "/login";
      return true;
    }

    /** logout: forgets the token and the user and goes to the login
        page. */
    method Logout()
      modifies this
      ensures token.None? && user.None? && !IsAuthenticated()
      ensures registeredUsers == old(registeredUsers) && error == old(error)
      ensures location == "/login"
    {
      token := None;
      user := None;
      location := "/login";
    }
  }
}

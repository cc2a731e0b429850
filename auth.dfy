/**
 * The session accessor `useAuth` (lib/useAuth.ts): the user record loaded from
 * browser storage, the loading flag, the queries derived from the record, and
 * logout.
 */
module Auth {
  import opened Wrappers

  /** The one storage key the accessor reads and removes. */
  const UserDataKey: string := "userData"
  /** The role reported when no role is stored. */
  const DefaultRole: string := "ta_member"
  /** The route logout navigates to. */
  const LoginRoute: string := "/login"
  /** The name shown for an unknown user and for an unknown role. */
  const FallbackName: string := "User"

  /** Display names of the three known roles. */
  const RoleNames: map<string, string> :=
    map["ta_admin" := "TA Admin", "ta_member" := "TA Member", "panelist" := "Panelist"]

  /**
   * The stored session record. `role` and `username` are plain strings: the
   * login page stores the raw `<select>` value as the role, and a key missing
   * from the stored JSON is read as the empty string (both are falsy).
   */
  datatype UserData = UserData(
    id: int,
    username: string,
    email: Option<string>,
    firstName: Option<string>,
    lastName: Option<string>,
    role: string,
    token: Option<string>)

  /** What `JSON.parse` makes of the stored text: a record, or a thrown error. */
  datatype ParseResult = Parsed(record: UserData) | Malformed

  /** JavaScript truthiness of an optional string. */
  predicate Present(s: Option<string>)
  {
    s.Some? && s.value != ""
  }

  /** `getUserRole`: the stored role, or `ta_member` when none is stored. */
  function UserRole(user: Option<UserData>): (role: string)
    ensures role != ""
    ensures role == DefaultRole || (user.Some? && role == user.value.role)
    ensures user.Some? && user.value.role != "" ==> role == user.value.role
    ensures user.None? ==> role == DefaultRole
  {
    if user.Some? && user.value.role != "" then user.value.role else DefaultRole
  }

  /**
   * `isAuthenticated`: a record is loaded. Without one, every query reports the
   * defaults.
   */
  function IsAuthenticated(user: Option<UserData>): (b: bool)
    ensures b <==> user.Some?
    ensures !b ==> UserRole(user) == DefaultRole && RoleDisplayName(user) == "TA Member"
                   && UserDisplayName(user) == FallbackName
  {
    user != None
  }

  /** `getRoleDisplayName`: the name of the known roles, `User` for any other. */
  function RoleDisplayName(user: Option<UserData>): (name: string)
    ensures UserRole(user) in RoleNames ==> name == RoleNames[UserRole(user)]
    ensures UserRole(user) !in RoleNames ==> name == FallbackName
    ensures name in RoleNames.Values || name == FallbackName
  {
    var role := UserRole(user);
    if role == "ta_admin" then "TA Admin"
    else if role == "ta_member" then "TA Member"
    else if role == "panelist" then "Panelist"
    else FallbackName
  }

  /**
   * `getUserDisplayName`: "first last" when both names are present, otherwise
   * the username, otherwise `User`. Never empty.
   */
  function UserDisplayName(user: Option<UserData>): (name: string)
    ensures name != ""
    ensures user.None? ==> name == FallbackName
    ensures user.Some? && Present(user.value.firstName) && Present(user.value.lastName) ==>
              name == user.value.firstName.value + " " + user.value.lastName.value
    ensures user.Some? && !(Present(user.value.firstName) && Present(user.value.lastName)) ==>
              name == (if user.value.username != "" then user.value.username else FallbackName)
  {
    match user
    case None => FallbackName
    case Some(u) =>
      if Present(u.firstName) && Present(u.lastName) then u.firstName.value + " " + u.lastName.value
      else if u.username != "" then u.username
      else FallbackName
  }

  /** The role values the login form stores: its `<select>` option values. */
  const LoginFormRoles: set<string> := {"user", "admin", "moderator"}

  /**
   * A session stored by the login form keeps its raw role, which is none of
   * the three known roles, so it is shown as `User`.
   */
  lemma LoginFormRolesShowAsUser(u: UserData)
    requires u.role in LoginFormRoles
    ensures UserRole(Some(u)) == u.role
    ensures RoleDisplayName(Some(u)) == FallbackName
  {
  }

  /** `localStorage.getItem('userData')` yields text that is truthy. */
  predicate HasStoredBlob(storage: map<string, string>)
  {
    UserDataKey in storage && storage[UserDataKey] != ""
  }

  /** The state of one `useAuth` instance, with the browser storage it reads. */
  class Session {
    var user: Option<UserData>
    var isLoading: bool
    var storage: map<string, string>

    /** The hook's initial state: no user, loading. */
    constructor (storage: map<string, string>)
      ensures user == None && isLoading && this.storage == storage
    {
      user := None;
      isLoading := true;
      this.storage := storage;
    }

    /**
     * The mount-time loader `getUserData`. `parse` stands for `JSON.parse`.
     * Text that does not parse is removed; loading ends on every path; no key
     * but `userData` is touched.
     */
    method LoadUserData(parse: string -> ParseResult)
      modifies this
      ensures !isLoading
      ensures storage - {UserDataKey} == old(storage) - {UserDataKey}
      ensures !HasStoredBlob(old(storage)) ==> user == old(user) && storage == old(storage)
      ensures HasStoredBlob(old(storage)) && parse(old(storage)[UserDataKey]).Parsed? ==>
                user == Some(parse(old(storage)[UserDataKey]).record) && storage == old(storage)
      ensures HasStoredBlob(old(storage)) && parse(old(storage)[UserDataKey]).Malformed? ==>
                user == old(user) && storage == old(storage) - {UserDataKey}
    {
      if UserDataKey in storage && storage[UserDataKey] != "" {
        var userData := storage[UserDataKey];
        match parse(userData) {
          case Parsed(record) =>
            user := Some(record);
          case Malformed =>
            storage := storage - {UserDataKey};
        }
      }
      isLoading := false;
    }

    /** `logout`: forget the session and go to the login page. */
    method Logout() returns (route: string)
      modifies this`user, this`storage
      ensures route == LoginRoute
      ensures user == None && storage == old(storage) - {UserDataKey}
      ensures UserDataKey !in storage
      ensures !IsAuthenticated(user) && UserRole(user) == DefaultRole
    {
      storage := storage - {UserDataKey};
      user := None;
      route := LoginRoute;
    }
  }

  /**
   * Calling `useAuth` in a component: the initial state followed by the
   * mount effect. Afterwards loading is over, a record is loaded exactly when
   * the stored text parses, and text that does not parse is gone.
   */
  method UseAuth(storage: map<string, string>, parse: string -> ParseResult) returns (s: Session)
    ensures fresh(s) && !s.isLoading
    ensures s.user.Some? <==> HasStoredBlob(storage) && parse(storage[UserDataKey]).Parsed?
    ensures s.user.Some? ==> s.user.value == parse(storage[UserDataKey]).record
    ensures s.storage == if HasStoredBlob(storage) && parse(storage[UserDataKey]).Malformed?
                         then storage - {UserDataKey} else storage
  {
    s := new Session(storage);
    s.LoadUserData(parse);
  }
}

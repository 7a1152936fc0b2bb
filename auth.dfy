/**
 * The demo authentication state: three built-in users, a single shared
 * password, and the provider whose `login`, `logout` and mount-time restore
 * update the user state and the session slot of the store.
 */
module Auth {
  import opened Types
  import opened Storage
  import opened Seqs

  /** `DEMO_USERS`: the three accounts the application accepts, none with an avatar. */
  const DemoUsers: seq<User> := [
    User("1", "Admin User", "admin@richezzamegavalue.com", Admin, Some("Management"), None),
    User("2", "HR Manager", "hr@richezzamegavalue.com", Manager, Some("Human Resources"), None),
    User("3", "John Employee", "john@richezzamegavalue.com", Employee, Some("Accounts"), None)]

  /** The one password every demo account accepts. */
  const DemoPassword: string := "demo123"

  /** `u => u.email === email`. */
  function EmailIs(email: string): User -> bool
  {
    (u: User) => u.email == email
  }

  /** `DEMO_USERS.find(u => u.email === email)`. */
  function FindDemoUser(email: string): (r: Option<User>)
    ensures r.None? <==> forall j | 0 <= j < |DemoUsers| :: DemoUsers[j].email != email
    ensures r.Some? ==> r.value in DemoUsers && r.value.email == email
  {
    var i := FirstIndex(DemoUsers, EmailIs(email));
    if i == -1 then None else Some(DemoUsers[i])
  }

  /** No two demo users share an email, so the lookup returns the one user with that email. */
  lemma DemoEmailsDistinct()
    ensures forall i, j | 0 <= i < j < |DemoUsers| :: DemoUsers[i].email != DemoUsers[j].email
    ensures forall i | 0 <= i < |DemoUsers| :: FindDemoUser(DemoUsers[i].email) == Some(DemoUsers[i])
  {
    forall i | 0 <= i < |DemoUsers| ensures FindDemoUser(DemoUsers[i].email) == Some(DemoUsers[i]) {
      var k := FirstIndex(DemoUsers, EmailIs(DemoUsers[i].email));
      assert k != -1;
      assert DemoUsers[k].email == DemoUsers[i].email;
    }
  }

  /**
   * The quick-login button for a role fills in the email of a demo user
   * with that role, and the demo password.
   */
  function QuickLoginCredentials(role: Role): (creds: (string, string))
    ensures creds.1 == DemoPassword
    ensures exists j | 0 <= j < |DemoUsers| :: DemoUsers[j].email == creds.0 && DemoUsers[j].role == role
  {
    match role
    case Admin =>
      assert DemoUsers[0].email == "admin@richezzamegavalue.com" && DemoUsers[0].role == Admin;
      ("admin@richezzamegavalue.com", "demo123")
    case Manager =>
      assert DemoUsers[1].email == "hr@richezzamegavalue.com" && DemoUsers[1].role == Manager;
      ("hr@richezzamegavalue.com", "demo123")
    case Employee =>
      assert DemoUsers[2].email == "john@richezzamegavalue.com" && DemoUsers[2].role == Employee;
      ("john@richezzamegavalue.com", "demo123")
  }

  /**
   * Each quick-login pair is accepted and finds the demo user whose role is
   * the button's role; different roles log in as different users.
   */
  lemma QuickLoginLogsInAsRole(role: Role)
    ensures QuickLoginCredentials(role).1 == DemoPassword
    ensures var u := FindDemoUser(QuickLoginCredentials(role).0); u.Some? && u.value.role == role
    ensures forall other: Role | other != role ::
      FindDemoUser(QuickLoginCredentials(other).0) != FindDemoUser(QuickLoginCredentials(role).0)
  {
    DemoEmailsDistinct();
    assert QuickLoginCredentials(Admin).0 == DemoUsers[0].email;
    assert QuickLoginCredentials(Manager).0 == DemoUsers[1].email;
    assert QuickLoginCredentials(Employee).0 == DemoUsers[2].email;
  }

  /** The context's state: the signed-in user and the loading flag, over the store's session slot. */
  class AuthProvider {
    const store: RecordStore
    var user: Option<User>
    var isLoading: bool

    constructor (store: RecordStore)
      ensures this.store == store
      ensures user == None && isLoading
    {
      this.store := store;
      user := None;
      isLoading := true;
    }

    /** `isAuthenticated`: `!!user`. */
    predicate IsAuthenticated()
      reads this
    {
      user.Some?
    }

    /** The mount effect: restore the user from the session slot when one is stored, then stop loading. */
    method Mount()
      modifies this
      ensures store.GetCurrentUser().Some? ==> user == store.GetCurrentUser() && IsAuthenticated()
      ensures store.GetCurrentUser().None? ==> user == old(user)
      ensures !isLoading
    {
      var current := store.GetCurrentUser();
      if current.Some? {
        user := current;
      }
      isLoading := false;
    }

    /**
     * `login`: accepted exactly when some demo user has the email and the
     * password is the demo password; then the user state and the session
     * slot both hold the first such user, and otherwise neither changes.
     * Loading is over whichever way it returns, and no collection is touched.
     */
    method Login(email: string, password: string) returns (ok: bool)
      modifies this, store
      ensures ok <==> (exists j | 0 <= j < |DemoUsers| :: DemoUsers[j].email == email) && password == DemoPassword
      ensures ok ==> user == FindDemoUser(email) && IsAuthenticated()
      ensures ok ==> store.session == if store.available then Some(Parsed(user.value)) else old(store.session)
      ensures ok && store.available ==> store.GetCurrentUser() == user
      ensures !ok ==> user == old(user) && store.session == old(store.session)
      ensures store.entries == old(store.entries)
      ensures !isLoading
    {
      isLoading := true;
      var found := FindDemoUser(email);
      if found.Some? && password == DemoPassword {
        user := found;
        store.SetCurrentUser(found.value);
        isLoading := false;
        return true;
      }
      isLoading := false;
      return false;
    }

    /** `logout`: forget the user and empty the session slot; the collections are untouched. */
    method Logout()
      modifies this, store
      ensures user == None && !IsAuthenticated()
      ensures store.GetCurrentUser() == None
      ensures store.session == if store.available then None else old(store.session)
      ensures store.entries == old(store.entries)
      ensures isLoading == old(isLoading)
    {
      user := None;
      store.Logout();
    }
  }
}

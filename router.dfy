/** The application router: the role it holds, mirrored from the session store,
    the redirects on login and logout, and which page each path shows. */
module App {
  import opened Wrappers
  import opened Collections
  import opened Session

  datatype Role = Company | Customer | Admin {
    /** The string stored under `userRole`. */
    function Name(): (s: string)
      ensures s in {"company", "customer", "admin"}
    {
      match this
      case Company => "company"
      case Customer => "customer"
      case Admin => "admin"
    }
  }

  /** The redirect target of `handleLogin`. */
  function DashboardPath(role: Role): (path: string)
    ensures path in {"/company", "/customer", "/admin"}
  {
    match role
    case Company => "/company"
    case Customer => "/customer"
    case Admin => "/admin"
  }

  datatype Page =
    | LoginScreen
    | CompanyHome
    | CustomerHome
    | AdminHome
    | ProductDetails(id: string)
    | NotFound
    | Blank  // the "/" route for a role none of its three branches names

  function DashboardPage(role: Role): Page {
    match role
    case Company => CompanyHome
    case Customer => CustomerHome
    case Admin => AdminHome
  }

  const ProductPrefix := "/product/"

  /** `/product/:id`: one non-empty path segment after the prefix. */
  predicate IsProductPath(path: string) {
    |path| > |ProductPrefix| && path[..|ProductPrefix|] == ProductPrefix
      && forall i :: |ProductPrefix| <= i < |path| ==> path[i] != '/'
  }

  /** What `Router` renders for a role and a path: without a role, the login
      page; otherwise the first matching route of the switch. */
  function Route(role: Option<string>, path: string): (page: Page)
    ensures !Truthy(role) ==> page == LoginScreen
    ensures page == CompanyHome ==> role == Some("company") && path in {"/company", "/"}
    ensures page == CustomerHome ==> role == Some("customer") && path in {"/customer", "/"}
    ensures page == AdminHome ==> role == Some("admin") && path in {"/admin", "/"}
  {
    if !Truthy(role) then LoginScreen
    else if path == "/login" then LoginScreen
    else if path == "/company" then (if role.value == "company" then CompanyHome else NotFound)
    else if path == "/customer" then (if role.value == "customer" then CustomerHome else NotFound)
    else if path == "/admin" then (if role.value == "admin" then AdminHome else NotFound)
    else if IsProductPath(path) then ProductDetails(path[|ProductPrefix|..])
    else if path == "/" then
      (if role.value == "company" then CompanyHome
       else if role.value == "customer" then CustomerHome
       else if role.value == "admin" then AdminHome
       else Blank)
    else NotFound
  }

  /** Each dashboard path shows its dashboard to its own role and NotFound to
      any other signed-in role. */
  lemma DashboardPathGuard(role: Role, held: string)
    requires held != ""
    ensures Route(Some(held), DashboardPath(role)) == if held == role.Name() then DashboardPage(role) else NotFound
  {
  }

  /** "/" shows the current role's own dashboard. */
  lemma RootShowsOwnDashboard(role: Role)
    ensures Route(Some(role.Name()), "/") == DashboardPage(role)
  {
  }

  /** Paths no route names show NotFound to a signed-in user. */
  lemma UnmatchedPathNotFound(held: string, path: string)
    requires held != ""
    requires path !in {"/login", "/company", "/customer", "/admin", "/"} && !IsProductPath(path)
    ensures Route(Some(held), path) == NotFound
  {
  }

  class Router {
    const store: SessionStorage
    var userRole: Option<string>
    var location: string
    /** The keys held by the React Query cache. */
    var cachedQueries: set<seq<string>>

    /** Mounting reads the role from the session store. */
    constructor (store: SessionStorage, location: string, cachedQueries: set<seq<string>>)
      ensures this.store == store && this.location == location && this.cachedQueries == cachedQueries
      ensures userRole == GetUserRole(store)
    {
      this.store := store;
      this.location := location;
      this.cachedQueries := cachedQueries;
      userRole := GetUserRole(store);
    }

    /** `checkUserRole`, the listener for `storage` and `userRoleChanged`. */
    method CheckUserRole()
      modifies this`userRole
      ensures userRole == GetUserRole(store)
    {
      userRole := GetUserRole(store);
    }

    /** `handleLogin`: set the role, announce the change (whose listener
        re-reads the store, and that setter runs last) and go to the role's
        dashboard. */
    method HandleLogin(role: Role)
      modifies this`userRole, this`location
      ensures userRole == GetUserRole(store)
      ensures location == DashboardPath(role)
    {
      userRole := Some(role.Name());
      CheckUserRole();
      location := DashboardPath(role);
    }

    /** `handleLogout`: clear the session keys and the query cache, drop the
        role and go to "/login". */
    method HandleLogout()
      modifies this, store
      ensures store.items == old(store.items) - SessionKeys
      ensures cachedQueries == {}
      ensures userRole == None
      ensures location == "/login"
      ensures Route(userRole, location) == LoginScreen
    {
      ClearUserData(store);
      cachedQueries := {};
      userRole := None;
      CheckUserRole();
      location := "/login";
    }
  }

  /** A customer login from the login page, then the router's `onLogin`: the
      router holds "customer" and shows the customer dashboard. */
  method CustomerSignIn(page: LoginPage, router: Router, data: LoginReply)
    requires page.store == router.store
    modifies page.store, router`userRole, router`location
    ensures page.store.items == LoggedIn(old(page.store.items), SessionEmail(data.customer, data.email, page.customerEmail), "customer")
    ensures router.userRole == Some("customer") && router.location == "/customer"
    ensures Route(router.userRole, router.location) == CustomerHome
  {
    page.CustomerLoginSettled(Success(data));
    router.HandleLogin(Customer);
  }

  /** The same for a company login. */
  method CompanySignIn(page: LoginPage, router: Router, data: LoginReply)
    requires page.store == router.store
    modifies page.store, router`userRole, router`location
    ensures page.store.items == LoggedIn(old(page.store.items), SessionEmail(data.company, data.email, page.companyEmail), "company")
    ensures router.userRole == Some("company") && router.location == "/company"
    ensures Route(router.userRole, router.location) == CompanyHome
  {
    page.CompanyLoginSettled(Success(data));
    router.HandleLogin(Company);
  }

  /** The same for an admin login. */
  method AdminSignIn(page: LoginPage, router: Router, data: LoginReply)
    requires page.store == router.store
    modifies page.store, router`userRole, router`location
    ensures page.store.items == LoggedIn(old(page.store.items), AdminSessionId(data.admin), "admin")
    ensures router.userRole == Some("admin") && router.location == "/admin"
    ensures Route(router.userRole, router.location) == AdminHome
  {
    page.AdminLoginSettled(Success(data));
    router.HandleLogin(Admin);
  }
}

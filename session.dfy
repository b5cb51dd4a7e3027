/** The login page and the two-key session store it writes. `sessionStorage`
    is a class holding a string-to-string map; the login page is a class whose
    fields are its form state and the pending flags of its five requests. */
module Session {
  import opened Wrappers
  import opened Collections

  const UserEmailKey := "userEmail"
  const UserRoleKey := "userRole"
  const SessionKeys: set<string> := {UserEmailKey, UserRoleKey}

  /** The browser's per-tab `sessionStorage`. */
  class SessionStorage {
    var items: map<string, string>

    constructor ()
      ensures items == map[]
    {
      items := map[];
    }

    /** `getItem(key)`: the stored string, or null. */
    function GetItem(key: string): (r: Option<string>)
      reads this
      ensures r.Some? <==> key in items
      ensures r.Some? ==> r.value == items[key]
    {
      if key in items then Some(items[key]) else None
    }

    method SetItem(key: string, value: string)
      modifies this
      ensures items == old(items)[key := value]
    {
      items := items[key := value];
    }

    method RemoveItem(key: string)
      modifies this
      ensures items == old(items) - {key}
    {
      items := items - {key};
    }
  }

  /** `getUserEmail()`. */
  function GetUserEmail(store: SessionStorage): (r: Option<string>)
    reads store
    ensures r.Some? <==> UserEmailKey in store.items
    ensures r.Some? ==> r.value == store.items[UserEmailKey]
  {
    store.GetItem(UserEmailKey)
  }

  /** `getUserRole()`: whatever string is stored under `userRole`; the cast to
      the three role names checks nothing. */
  function GetUserRole(store: SessionStorage): (r: Option<string>)
    reads store
    ensures r.Some? <==> UserRoleKey in store.items
    ensures r.Some? ==> r.value == store.items[UserRoleKey]
  {
    store.GetItem(UserRoleKey)
  }

  /** `clearUserData()`: both session keys go, every other key stays. */
  method ClearUserData(store: SessionStorage)
    modifies store
    ensures store.items == old(store.items) - SessionKeys
    ensures GetUserEmail(store).None? && GetUserRole(store).None?
  {
    store.RemoveItem(UserEmailKey);
    store.RemoveItem(UserRoleKey);
  }

  /** The store after a successful login: the old entries without the session
      keys, then the identity and the role. */
  function LoggedIn(items: map<string, string>, identity: string, role: string): (r: map<string, string>)
    ensures r.Keys == items.Keys + SessionKeys
    ensures r[UserEmailKey] == identity && r[UserRoleKey] == role
    ensures forall k :: k in items && k !in SessionKeys ==> r[k] == items[k]
  {
    (items - SessionKeys)[UserEmailKey := identity][UserRoleKey := role]
  }

  /** The parts of a login reply that the page reads. */
  datatype Account = Account(email: Option<string>)
  datatype AdminAccount = AdminAccount(adminId: Option<string>, admin_id: Option<string>)
  datatype LoginReply = LoginReply(
    customer: Option<Account>,
    company: Option<Account>,
    admin: Option<AdminAccount>,
    email: Option<string>)

  /** `data.customer?.email` and its siblings. */
  function AccountEmail(account: Option<Account>): Option<string> {
    if account.Some? then account.value.email else None
  }

  /** The identity a customer or company login stores: the account's email,
      else the reply's top-level email, else what was typed. An absent or
      empty candidate is skipped. */
  function SessionEmail(account: Option<Account>, replyEmail: Option<string>, typed: string): (e: string)
    ensures Truthy(AccountEmail(account)) ==> e == AccountEmail(account).value
    ensures !Truthy(AccountEmail(account)) && Truthy(replyEmail) ==> e == replyEmail.value
    ensures !Truthy(AccountEmail(account)) && !Truthy(replyEmail) ==> e == typed
  {
    OrElse(AccountEmail(account), OrElse(replyEmail, typed))
  }

  const DefaultAdminId := "admin_001"

  /** The identity an admin login stores: `adminId`, else `admin_id`, else
      "admin_001"; it is never empty. */
  function AdminSessionId(admin: Option<AdminAccount>): (id: string)
    ensures id != ""
    ensures admin.Some? && Truthy(admin.value.adminId) ==> id == admin.value.adminId.value
    ensures admin.Some? && !Truthy(admin.value.adminId) && Truthy(admin.value.admin_id) ==> id == admin.value.admin_id.value
    ensures (admin.None? || (!Truthy(admin.value.adminId) && !Truthy(admin.value.admin_id))) ==> id == DefaultAdminId
  {
    match admin
    case None => DefaultAdminId
    case Some(a) => OrElse(a.adminId, OrElse(a.admin_id, DefaultAdminId))
  }

  /** The five requests the page can send. */
  datatype Request =
    | CustomerRegister(email: string, password: string, name: string)
    | CustomerLogin(email: string, password: string)
    | CompanyRegister(email: string, password: string, companyName: string, registrationNumber: string, name: string)
    | CompanyLogin(email: string, password: string)
    | AdminLogin(adminId: string, password: string)

  class LoginPage {
    const store: SessionStorage

    var isSignUp: bool
    var customerEmail: string
    var customerPassword: string
    var customerName: string
    var companyEmail: string
    var companyPassword: string
    var companyName: string
    var registrationNumber: string
    var contactName: string
    var adminId: string
    var adminPassword: string

    var customerLoginPending: bool
    var customerRegisterPending: bool
    var companyLoginPending: bool
    var companyRegisterPending: bool
    var adminLoginPending: bool

    constructor (store: SessionStorage)
      ensures this.store == store
      ensures !isSignUp
      ensures customerEmail == customerPassword == customerName == ""
      ensures companyEmail == companyPassword == companyName == registrationNumber == contactName == ""
      ensures adminId == adminPassword == ""
      ensures !IsLoading()
    {
      this.store := store;
      isSignUp := false;
      customerEmail, customerPassword, customerName := "", "", "";
      companyEmail, companyPassword, companyName, registrationNumber, contactName := "", "", "", "", "";
      adminId, adminPassword := "", "";
      customerLoginPending, customerRegisterPending := false, false;
      companyLoginPending, companyRegisterPending, adminLoginPending := false, false, false;
    }

    /** `isLoading`: some request is in flight. */
    predicate IsLoading()
      reads this
    {
      customerLoginPending || customerRegisterPending || companyLoginPending
        || companyRegisterPending || adminLoginPending
    }

    /** `handleCustomerSubmit`: register in sign-up mode, log in otherwise,
        always with the typed email and password. */
    method HandleCustomerSubmit() returns (req: Request)
      ensures req.CustomerRegister? <==> isSignUp
      ensures req.CustomerRegister? || req.CustomerLogin?
      ensures req.email == customerEmail && req.password == customerPassword
      ensures req.CustomerRegister? ==> req.name == customerName
    {
      if isSignUp {
        req := CustomerRegister(customerEmail, customerPassword, customerName);
      } else {
        req := CustomerLogin(customerEmail, customerPassword);
      }
    }

    /** `handleCompanySubmit`: the same choice for the company tab. */
    method HandleCompanySubmit() returns (req: Request)
      ensures req.CompanyRegister? <==> isSignUp
      ensures req.CompanyRegister? || req.CompanyLogin?
      ensures req.email == companyEmail && req.password == companyPassword
      ensures req.CompanyRegister? ==>
        req.companyName == companyName && req.registrationNumber == registrationNumber && req.name == contactName
    {
      if isSignUp {
        req := CompanyRegister(companyEmail, companyPassword, companyName, registrationNumber, contactName);
      } else {
        req := CompanyLogin(companyEmail, companyPassword);
      }
    }

    /** `handleAdminSubmit`: always a login, whatever the sign-up mode. */
    method HandleAdminSubmit() returns (req: Request)
      ensures req == AdminLogin(adminId, adminPassword)
    {
      req := AdminLogin(adminId, adminPassword);
    }

    /** The customer login settles: on success the session is cleared and then
        holds the chosen email and the role "customer"; on failure (a toast)
        nothing changes. */
    method CustomerLoginSettled(reply: Result<LoginReply, string>)
      modifies store
      ensures reply.Failure? ==> store.items == old(store.items)
      ensures reply.Success? ==>
        store.items == LoggedIn(old(store.items), SessionEmail(reply.value.customer, reply.value.email, customerEmail), "customer")
    {
      if reply.Success? {
        var data := reply.value;
        ClearUserData(store);
        var email := SessionEmail(data.customer, data.email, customerEmail);
        store.SetItem(UserEmailKey, email);
        store.SetItem(UserRoleKey, "customer");
      }
    }

    /** The company login settles: as for a customer, with the company account
        and the role "company". */
    method CompanyLoginSettled(reply: Result<LoginReply, string>)
      modifies store
      ensures reply.Failure? ==> store.items == old(store.items)
      ensures reply.Success? ==>
        store.items == LoggedIn(old(store.items), SessionEmail(reply.value.company, reply.value.email, companyEmail), "company")
    {
      if reply.Success? {
        var data := reply.value;
        ClearUserData(store);
        var email := SessionEmail(data.company, data.email, companyEmail);
        store.SetItem(UserEmailKey, email);
        store.SetItem(UserRoleKey, "company");
      }
    }

    /** The admin login settles: the stored identity is the admin id, the role
        "admin". */
    method AdminLoginSettled(reply: Result<LoginReply, string>)
      modifies store
      ensures reply.Failure? ==> store.items == old(store.items)
      ensures reply.Success? ==> store.items == LoggedIn(old(store.items), AdminSessionId(reply.value.admin), "admin")
    {
      if reply.Success? {
        ClearUserData(store);
        var id := AdminSessionId(reply.value.admin);
        store.SetItem(UserEmailKey, id);
        store.SetItem(UserRoleKey, "admin");
      }
    }

    /** The customer registration settles: on success the page leaves sign-up
        mode and clears the customer password only; the session is untouched
        either way. */
    method CustomerRegisterSettled(ok: bool)
      modifies this`isSignUp, this`customerPassword
      ensures ok ==> !isSignUp && customerPassword == ""
      ensures !ok ==> isSignUp == old(isSignUp) && customerPassword == old(customerPassword)
    {
      if ok {
        isSignUp := false;
        customerPassword := "";
      }
    }

    /** The company registration settles: the same, for the company password. */
    method CompanyRegisterSettled(ok: bool)
      modifies this`isSignUp, this`companyPassword
      ensures ok ==> !isSignUp && companyPassword == ""
      ensures !ok ==> isSignUp == old(isSignUp) && companyPassword == old(companyPassword)
    {
      if ok {
        isSignUp := false;
        companyPassword := "";
      }
    }
  }
}

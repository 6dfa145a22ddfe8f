/** The navigation bar: the session it reads from local storage, logout,
    and the password that unlocks the dashboard. */
module AppNavbar {
  import opened Js
  import opened Text
  import opened Browser

  /** The password the dashboard dialog compares against. */
  const DashboardPassword := "Muema1254"

  const AdminPath := "/admin"
  const LoginPath := "/login"
  const HomePath := "/"

  /** The bar's state, with local storage and the last page navigated to.
      `user` is the stored user value once read; `cartCount` is None when
      the stored count is not a number (`NaN`). */
  datatype NavbarState = NavbarState(
    user: Option<Stored>,
    showDashboardModal: bool,
    dashboardPassword: string,
    passwordError: bool,
    cartCount: Option<int>,
    storage: Storage,
    navigation: Option<string>)

  function Initial(storage: Storage): NavbarState
  {
    NavbarState(None, false, "", false, Some(0), storage, None)
  }

  /** `localStorage.getItem(key)` when the value is truthy, None when it is
      missing or the empty string. */
  function TruthyItem(storage: Storage, key: string): (r: Option<Stored>)
    ensures r.Some? <==> key in storage && storage[key].Truthy()
    ensures r.Some? ==> r.value == storage[key]
  {
    if key in storage && storage[key].Truthy() then Some(storage[key]) else None
  }

  /** `parseInt(localStorage.getItem('cartCount') || 0, 10)`: a missing or
      empty count reads as 0; a stored user record is not a number. */
  function StoredCartCount(storage: Storage): (r: Option<int>)
    ensures TruthyItem(storage, CartCountKey).None? ==> r == Some(0)
    ensures TruthyItem(storage, CartCountKey).Some? && storage[CartCountKey].Text? ==>
              r == ParseInt(storage[CartCountKey].text)
    ensures TruthyItem(storage, CartCountKey).Some? && storage[CartCountKey].UserJson? ==> r.None?
  {
    match TruthyItem(storage, CartCountKey)
    case None => Some(0)
    case Some(Text(t)) => ParseInt(t)
    case Some(UserJson(_)) => None
  }

  /** The mount effect: the user is read when storage holds a truthy one
      (else it stays as it was) and the cart count is read. */
  function Loaded(s: NavbarState): (t: NavbarState)
    ensures t.user.Some? <==> s.user.Some? || (UserKey in s.storage && s.storage[UserKey].Truthy())
    ensures UserKey in s.storage && s.storage[UserKey].Truthy() ==> t.user == Some(s.storage[UserKey])
    ensures t.cartCount == StoredCartCount(s.storage)
    ensures t == s.(user := t.user, cartCount := t.cartCount)
  {
    var userData := TruthyItem(s.storage, UserKey);
    s.(user := if userData.Some? then userData else s.user, cartCount := StoredCartCount(s.storage))
  }

  /** On a fresh bar the user is set exactly when storage holds one. */
  lemma UserLoadedIffStored(storage: Storage)
    ensures Loaded(Initial(storage)).user.Some? <==> UserKey in storage && storage[UserKey].Truthy()
  {
  }

  /** A count stored as a decimal numeral is read back as that number. */
  lemma StoredCountReadBack(storage: Storage, n: nat)
    requires CartCountKey in storage && storage[CartCountKey] == Text(Decimal(n))
    ensures StoredCartCount(storage) == Some(n)
  {
    ParseIntReadsNumeral(n, "");
    assert Decimal(n) + "" == Decimal(n);
  }

  /** `handleLogout`: exactly the user, the token and the dashboard flag
      are removed, the user is forgotten, and the home page opens. */
  function Logout(s: NavbarState): (t: NavbarState)
    ensures t.storage.Keys == s.storage.Keys - {UserKey, TokenKey, DashboardKey}
    ensures forall k :: k in t.storage ==> t.storage[k] == s.storage[k]
    ensures t.user.None? && t.navigation == Some(HomePath)
    ensures t == s.(storage := t.storage, user := None, navigation := Some(HomePath))
  {
    s.(storage := s.storage - {UserKey, TokenKey, DashboardKey}, user := None, navigation := Some(HomePath))
  }

  /** `handleDashboardAccess`: the right password clears the error, closes
      the dialog, records access and opens the admin page for a signed-in
      user or the login page otherwise; a wrong one only raises the error. */
  function AccessDashboard(s: NavbarState): (t: NavbarState)
    ensures s.dashboardPassword != DashboardPassword ==> t == s.(passwordError := true)
    ensures s.dashboardPassword == DashboardPassword ==>
              && !t.passwordError && !t.showDashboardModal
              && t.storage == s.storage[DashboardKey := Text("true")]
              && t.navigation == Some(if s.user.Some? then AdminPath else LoginPath)
              && t.user == s.user && t.cartCount == s.cartCount
              && t == s.(passwordError := false, showDashboardModal := false,
                         storage := t.storage, navigation := t.navigation)
  {
    if s.dashboardPassword == DashboardPassword then
      s.(passwordError := false, showDashboardModal := false,
         storage := s.storage[DashboardKey := Text("true")],
         navigation := Some(if s.user.Some? then AdminPath else LoginPath))
    else s.(passwordError := true)
  }

  /** Access is recorded only through the password. */
  lemma AccessNeedsPassword(s: NavbarState)
    requires AccessDashboard(s).storage != s.storage
    ensures s.dashboardPassword == DashboardPassword
  {
  }

  /** After logout the right password leads to the login page, and access
      is recorded again. */
  lemma LoggedOutAccessGoesToLogin(s: NavbarState)
    requires s.dashboardPassword == DashboardPassword
    ensures AccessDashboard(Logout(s)).navigation == Some(LoginPath)
    ensures AccessDashboard(Logout(s)).storage[DashboardKey] == Text("true")
    ensures UserKey !in AccessDashboard(Logout(s)).storage
  {
  }

  class NavbarScreen {
    var user: Option<Stored>
    var showDashboardModal: bool
    var dashboardPassword: string
    var passwordError: bool
    var cartCount: Option<int>
    var storage: Storage
    var navigation: Option<string>

    function State(): NavbarState
      reads this
    {
      NavbarState(user, showDashboardModal, dashboardPassword, passwordError, cartCount, storage, navigation)
    }

    constructor (initialStorage: Storage)
      ensures State() == Initial(initialStorage)
    {
      user, showDashboardModal, dashboardPassword, passwordError := None, false, "", false;
      cartCount, storage, navigation := Some(0), initialStorage, None;
    }

    /** The `useEffect` run once on mount. */
    method Mount()
      modifies this
      ensures State() == Loaded(old(State()))
    {
      if UserKey in storage && storage[UserKey].Truthy() {
        user := Some(storage[UserKey]);
      }
      var storedCartCount := if CartCountKey in storage && storage[CartCountKey].Truthy()
                             then Some(storage[CartCountKey]) else None;
      match storedCartCount {
        case None => cartCount := Some(0);
        case Some(Text(t)) => cartCount := ParseInt(t);
        case Some(UserJson(_)) => cartCount := None;
      }
    }

    method HandleLogout()
      modifies this
      ensures State() == Logout(old(State()))
    {
      ghost var s := State();
      storage := storage - {UserKey};
      storage := storage - {TokenKey};
      storage := storage - {DashboardKey};
      assert storage == s.storage - {UserKey, TokenKey, DashboardKey};
      user := None;
      navigation := Some(HomePath);
    }

    /** The dashboard icon opens the dialog. */
    method HandleDashboardClick()
      modifies this
      ensures State() == old(State()).(showDashboardModal := true)
    {
      showDashboardModal := true;
    }

    /** Typing in the password field. */
    method TypePassword(value: string)
      modifies this
      ensures State() == old(State()).(dashboardPassword := value)
    {
      dashboardPassword := value;
    }

    /** Cancel, or the dialog's close button. */
    method HideModal()
      modifies this
      ensures State() == old(State()).(showDashboardModal := false)
    {
      showDashboardModal := false;
    }

    method HandleDashboardAccess()
      modifies this
      ensures State() == AccessDashboard(old(State()))
    {
      if dashboardPassword == DashboardPassword {
        passwordError := false;
        showDashboardModal := false;
        storage := storage[DashboardKey := Text("true")];
        if user.Some? {
          navigation := Some(AdminPath);
        } else {
          navigation := Some(LoginPath);
        }
      } else {
        passwordError := true;
      }
    }
  }
}

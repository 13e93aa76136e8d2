/** The route guard that wraps every page: on mount and on every change of path it asks
    the backend for the current user and that user's profile role, stores what it found,
    and pushes at most one redirect; its render shows a spinner, nothing or the page. */
module AuthGuard {
  import opened Seqs
  import opened Text

  const LoginPath := "/login"
  const DashboardPath := "/dashboard"
  const AdminPath := "/admin"
  const AdminRole := "admin"
  const DefaultRole := "user"

  /** The signed-in principal; only its identifier matters to the guard. */
  datatype User = User(id: string)

  /** The profile row read for the user (`profiles.role`, possibly null). */
  datatype Profile = Profile(role: Option<string>)

  /** The result of an awaited backend call: its value, or an exception. */
  datatype Outcome<+T> = Returned(value: T) | Threw

  /** What one evaluation leaves behind: the stored user and role, and the redirect it pushed. */
  datatype Evaluation = Evaluation(user: Option<User>, userRole: Option<string>, redirect: Option<string>)

  /** The identity the two lookups establish; any exception counts as no identity. */
  datatype Identity = Anonymous | Identified(user: User, profile: Option<Profile>)

  datatype View = Spinner | Nothing | Children

  /** `profile?.role`. */
  function RoleOf(profile: Option<Profile>): Option<string>
  {
    if profile.Some? then profile.value.role else None
  }

  /** `profile?.role === 'admin'`. */
  function IsAdmin(profile: Option<Profile>): (b: bool)
    ensures b <==> profile.Some? && profile.value.role == Some(AdminRole)
  {
    RoleOf(profile) == Some(AdminRole)
  }

  /** `profile?.role || 'user'`: the role that is stored for a present user. */
  function StoredRole(profile: Option<Profile>): (role: string)
    ensures Truthy(RoleOf(profile)) ==> role == RoleOf(profile).value
    ensures !Truthy(RoleOf(profile)) ==> role == DefaultRole
    ensures role == AdminRole <==> IsAdmin(profile)
  {
    OrDefault(RoleOf(profile), DefaultRole)
  }

  /** Collapses the user lookup and the profile lookup into an identity. */
  function Resolve(getUser: Outcome<Option<User>>, profileLookup: Outcome<Option<Profile>>): (id: Identity)
    ensures id.Identified? <==> getUser.Returned? && getUser.value.Some? && profileLookup.Returned?
    ensures id.Identified? ==> getUser.value == Some(id.user) && id.profile == profileLookup.value
  {
    match getUser
    case Threw => Anonymous
    case Returned(None) => Anonymous
    case Returned(Some(u)) =>
      match profileLookup
      case Threw => Anonymous
      case Returned(p) => Identified(u, p)
  }

  /** The guard's decision table for one evaluation, by identity. */
  function Evaluate(requireAuth: bool, requireAdmin: bool, pathname: string,
                    getUser: Outcome<Option<User>>, profileLookup: Outcome<Option<Profile>>): (e: Evaluation)
    ensures e.user.Some? <==> e.userRole.Some?
    ensures e.redirect.Some? ==> e.redirect.value in {LoginPath, DashboardPath, AdminPath}
  {
    match Resolve(getUser, profileLookup)
    case Anonymous =>
      Evaluation(None, None, if requireAuth && pathname != LoginPath then Some(LoginPath) else None)
    case Identified(u, p) =>
      var target :=
        if requireAdmin && !IsAdmin(p) then Some(DashboardPath)
        else if pathname == LoginPath then Some(if IsAdmin(p) then AdminPath else DashboardPath)
        else None;
      Evaluation(Some(u), Some(StoredRole(p)), target)
  }

  /** What the guard renders for a given state. */
  function Render(loading: bool, requireAuth: bool, requireAdmin: bool,
                  user: Option<User>, userRole: Option<string>): (v: View)
    ensures loading <==> v == Spinner
    ensures v == Children <==>
              !loading && (!requireAuth || user.Some?) && (!requireAdmin || userRole == Some(AdminRole))
  {
    if loading then Spinner
    else if requireAuth && user.None? then Nothing
    else if requireAdmin && userRole != Some(AdminRole) then Nothing
    else Children
  }

  function RedirectList(target: Option<string>): (pushes: seq<string>)
    ensures |pushes| <= 1
    ensures pushes == [] <==> target.None?
    ensures target.Some? ==> pushes == [target.value]
  {
    if target.Some? then [target.value] else []
  }

  /** One mounted guard: its props, its state fields and the log of `router.push` calls. */
  class Guard {
    const requireAuth: bool
    const requireAdmin: bool
    var loading: bool
    var user: Option<User>
    var userRole: Option<string>
    var pushed: seq<string>

    /** `useState(true)`, `useState(null)`, `useState(null)`; nothing pushed yet. */
    constructor (requireAuth: bool, requireAdmin: bool)
      ensures this.requireAuth == requireAuth && this.requireAdmin == requireAdmin
      ensures loading && user.None? && userRole.None? && pushed == []
    {
      this.requireAuth := requireAuth;
      this.requireAdmin := requireAdmin;
      loading := true;
      user := None;
      userRole := None;
      pushed := [];
    }

    /** The rendered output for the current state. */
    function View(): (v: View)
      reads this
      ensures v == Spinner <==> loading
      ensures v == Children ==> (!requireAuth || user.Some?) && (!requireAdmin || userRole == Some(AdminRole))
    {
      Render(loading, requireAuth, requireAdmin, user, userRole)
    }

    method Push(path: string)
      modifies this`pushed
      ensures pushed == old(pushed) + [path]
    {
      pushed := pushed + [path];
    }

    /** `checkAuth`: the two awaited lookups are inputs; the fields are set in the order
        the source sets them, each `router.push` is followed by a return, and `finally`
        clears `loading` on every path. */
    method CheckAuth(pathname: string, getUser: Outcome<Option<User>>, profileLookup: Outcome<Option<Profile>>)
      modifies this`loading, this`user, this`userRole, this`pushed
      ensures !loading
      ensures var e := Evaluate(requireAuth, requireAdmin, pathname, getUser, profileLookup);
              user == e.user && userRole == e.userRole && pushed == old(pushed) + RedirectList(e.redirect)
    {
      var threw := false;
      if getUser.Threw? {
        threw := true;
      } else if getUser.value.Some? {
        user := getUser.value;
        if profileLookup.Threw? {
          threw := true;
        } else {
          var profile := profileLookup.value;
          userRole := Some(OrDefault(RoleOf(profile), DefaultRole));
          if requireAdmin && RoleOf(profile) != Some(AdminRole) {
            Push(DashboardPath);
            loading := false;
            return;
          }
          if pathname == LoginPath {
            if RoleOf(profile) == Some(AdminRole) {
              Push(AdminPath);
            } else {
              Push(DashboardPath);
            }
            loading := false;
            return;
          }
        }
      } else {
        user := None;
        userRole := None;
        if requireAuth && pathname != LoginPath {
          Push(LoginPath);
          loading := false;
          return;
        }
      }
      if threw {
        user := None;
        userRole := None;
        if requireAuth && pathname != LoginPath {
          Push(LoginPath);
        }
      }
      loading := false;
    }
  }

  /** Evaluating twice with unchanged lookups ends in the state the first evaluation left and
      repeats its redirect, if any, once. */
  method CheckAuthTwice(guard: Guard, pathname: string, getUser: Outcome<Option<User>>, profileLookup: Outcome<Option<Profile>>)
    modifies guard
    ensures var e := Evaluate(guard.requireAuth, guard.requireAdmin, pathname, getUser, profileLookup);
            && !guard.loading && guard.user == e.user && guard.userRole == e.userRole
            && guard.pushed == old(guard.pushed) + RedirectList(e.redirect) + RedirectList(e.redirect)
  {
    guard.CheckAuth(pathname, getUser, profileLookup);
    guard.CheckAuth(pathname, getUser, profileLookup);
  }

  /** A present user without the admin role, on a page that requires admin, is sent to the
      dashboard and nowhere else, whatever the path. */
  lemma NonAdminBouncedToDashboard(requireAuth: bool, pathname: string, u: User, profile: Option<Profile>)
    requires !IsAdmin(profile)
    ensures Evaluate(requireAuth, true, pathname, Returned(Some(u)), Returned(profile)).redirect == Some(DashboardPath)
  {
  }

  /** A present user on the login page who passes the admin check goes to the admin area
      if admin, to the dashboard otherwise. */
  lemma SignedInUserLeavesLogin(requireAuth: bool, requireAdmin: bool, u: User, profile: Option<Profile>)
    requires !requireAdmin || IsAdmin(profile)
    ensures Evaluate(requireAuth, requireAdmin, LoginPath, Returned(Some(u)), Returned(profile)).redirect
            == Some(if IsAdmin(profile) then AdminPath else DashboardPath)
  {
  }

  /** Without an identity the only possible redirect is to the login page, exactly when
      authentication is required and the path is not the login page itself. */
  lemma AnonymousRule(requireAuth: bool, requireAdmin: bool, pathname: string,
                      getUser: Outcome<Option<User>>, profileLookup: Outcome<Option<Profile>>)
    requires Resolve(getUser, profileLookup) == Anonymous
    ensures var e := Evaluate(requireAuth, requireAdmin, pathname, getUser, profileLookup);
            e.user.None? && e.userRole.None? &&
            (e.redirect.Some? <==> requireAuth && pathname != LoginPath) &&
            (e.redirect.Some? ==> e.redirect.value == LoginPath)
  {
  }

  /** An exception from either lookup has exactly the effect of finding no user. */
  lemma ThrownLookupIsNoUser(requireAuth: bool, requireAdmin: bool, pathname: string,
                             getUser: Outcome<Option<User>>, profileLookup: Outcome<Option<Profile>>)
    requires getUser.Threw? || (getUser.Returned? && getUser.value.Some? && profileLookup.Threw?)
    ensures Evaluate(requireAuth, requireAdmin, pathname, getUser, profileLookup)
            == Evaluate(requireAuth, requireAdmin, pathname, Returned(None), profileLookup)
  {
  }

  /** After any evaluation the page is shown only to who the props admit: an admin-only page
      only after a profile lookup that returned the `admin` role. */
  lemma {:induction false} AdminContentOnlyForAdmins(requireAuth: bool, pathname: string,
                                   getUser: Outcome<Option<User>>, profileLookup: Outcome<Option<Profile>>)
    ensures var e := Evaluate(requireAuth, true, pathname, getUser, profileLookup);
            Render(false, requireAuth, true, e.user, e.userRole) == Children ==>
              getUser.Returned? && getUser.value.Some? && profileLookup.Returned? && IsAdmin(profileLookup.value)
  {
    var e := Evaluate(requireAuth, true, pathname, getUser, profileLookup);
    match Resolve(getUser, profileLookup)
    case Anonymous =>
      assert e.userRole.None?;
    case Identified(u, p) =>
      assert e.userRole == Some(StoredRole(p));
  }

  /** An admin requirement without an authentication requirement, when no user is found,
      hides the page and pushes no redirect: the visitor is left on an empty page. */
  lemma {:induction false} HiddenWithoutRedirect(pathname: string, profileLookup: Outcome<Option<Profile>>)
    ensures var e := Evaluate(false, true, pathname, Returned(None), profileLookup);
            e.redirect.None? && Render(false, false, true, e.user, e.userRole) == Nothing
  {
  }

  /** On the login page a signed-in user of a guard without requirements gets the page
      rendered in the same state that pushed the redirect away from it. */
  lemma LoginPageStillRenderedWhileRedirecting(u: User, profile: Option<Profile>)
    ensures var e := Evaluate(false, false, LoginPath, Returned(Some(u)), Returned(profile));
            e.redirect.Some? && Render(false, false, false, e.user, e.userRole) == Children
  {
  }

  /** Whenever a redirect away from a protected page is pushed, that page is not rendered. */
  lemma {:induction false} ProtectedPageHiddenWhileRedirecting(requireAuth: bool, requireAdmin: bool, pathname: string,
                                        getUser: Outcome<Option<User>>, profileLookup: Outcome<Option<Profile>>)
    requires requireAuth || requireAdmin
    requires pathname != LoginPath
    ensures var e := Evaluate(requireAuth, requireAdmin, pathname, getUser, profileLookup);
            e.redirect.Some? ==> Render(false, requireAuth, requireAdmin, e.user, e.userRole) == Nothing
  {
    var e := Evaluate(requireAuth, requireAdmin, pathname, getUser, profileLookup);
    match Resolve(getUser, profileLookup)
    case Anonymous =>
    case Identified(u, p) =>
      assert e.userRole == Some(StoredRole(p));
  }

  /** A signed-in visitor is left where they are exactly when the admin check passes and the
      path is not the login page; then the user and the stored role are kept and the page is
      rendered. */
  lemma AllowedVisitorStays(requireAuth: bool, requireAdmin: bool, pathname: string, u: User, p: Option<Profile>)
    ensures var e := Evaluate(requireAuth, requireAdmin, pathname, Returned(Some(u)), Returned(p));
            e.redirect.None? <==> (!requireAdmin || IsAdmin(p)) && pathname != LoginPath
    ensures var e := Evaluate(requireAuth, requireAdmin, pathname, Returned(Some(u)), Returned(p));
            e.redirect.None? ==>
              && e.user == Some(u) && e.userRole == Some(StoredRole(p))
              && Render(false, requireAuth, requireAdmin, e.user, e.userRole) == Children
  {
  }

  /** The guard as the three layouts configure it, on one concrete path each. */
  lemma LayoutScenarios(u: User)
    // the admin layout, no user, on /admin
    ensures Evaluate(true, true, AdminPath, Returned(None), Returned(None)).redirect == Some(LoginPath)
    // the admin layout, a plain user, on /admin
    ensures Evaluate(true, true, AdminPath, Returned(Some(u)), Returned(Some(Profile(Some("user"))))).redirect
            == Some(DashboardPath)
    // the root layout, an admin, on /login
    ensures Evaluate(false, false, LoginPath, Returned(Some(u)), Returned(Some(Profile(Some("admin"))))).redirect
            == Some(AdminPath)
    // the dashboard layout, a profile lookup that threw
    ensures Evaluate(true, false, DashboardPath, Returned(Some(u)), Threw).redirect == Some(LoginPath)
    // a profile without a role is stored as a plain user
    ensures Evaluate(false, false, DashboardPath, Returned(Some(u)), Returned(Some(Profile(None)))).userRole
            == Some(DefaultRole)
  {
  }
}

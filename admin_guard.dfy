/** The admin route guard (`middleware/admin.ts`): a signed-in user reaches
    an admin route only with the permission of the most specific route prefix
    it falls under. The permission query is the input `hasPermission`. */
module AdminGuard {
  import opened Wrappers
  import opened Text

  datatype Decision = Allow | Redirect(to: string)

  /** `routeToPermissionMap`, in declaration order. */
  const ROUTE_PERMISSIONS: seq<(string, string)> := [
    ("/admin", "system.manage"),
    ("/admin/podcasts", "content.create"),
    ("/admin/articles", "content.create"),
    ("/admin/resources", "content.create"),
    ("/admin/categories", "categories.create"),
    ("/admin/users", "users.view")]

  /** The entries whose route is a prefix of `path`, in order (the `filter`). */
  function Matching(entries: seq<(string, string)>, path: string): (r: seq<(string, string)>)
    ensures forall e :: e in r <==> e in entries && IsPrefix(e.0, path)
  {
    if entries == [] then []
    else if IsPrefix(entries[0].0, path) then [entries[0]] + Matching(entries[1..], path)
    else Matching(entries[1..], path)
  }

  /** The head of the list after the stable sort by decreasing route length:
      the first entry of greatest route length. */
  function Longest(entries: seq<(string, string)>): (r: (string, string))
    requires entries != []
    ensures r in entries
    ensures forall e :: e in entries ==> |e.0| <= |r.0|
  {
    if |entries| == 1 then entries[0]
    else
      var rest := Longest(entries[1..]);
      if |entries[0].0| >= |rest.0| then entries[0] else rest
  }

  /** `requiredPermission`, absent when no route matches. Only a path under
      `/admin` requires a permission, and it is that of a route prefixing the
      path. */
  function RequiredPermission(path: string): (r: Option<string>)
    ensures r.Some? ==> IsPrefix("/admin", path)
    ensures r.Some? ==> exists e :: e in ROUTE_PERMISSIONS && IsPrefix(e.0, path) && e.1 == r.value
  {
    var m := Matching(ROUTE_PERMISSIONS, path);
    if m == [] then None
    else
      var e := Longest(m);
      AdminRouteFacts();
      PrefixTransitive("/admin", e.0, path);
      Some(e.1)
  }

  /** Two routes that both prefix the path and have the same length are the
      same route, so the choice among longest matches is never ambiguous. */
  lemma EqualLengthPrefixesAgree(p: string, q: string, path: string)
    requires IsPrefix(p, path) && IsPrefix(q, path) && |p| == |q|
    ensures p == q
  {
  }

  /** The required permission belongs to the longest route that prefixes the
      path; no route prefixes it exactly when none is required. */
  lemma RequiredIsMostSpecific(path: string)
    ensures RequiredPermission(path).None? <==> forall e :: e in ROUTE_PERMISSIONS ==> !IsPrefix(e.0, path)
    ensures RequiredPermission(path).Some? ==>
      exists e :: e in ROUTE_PERMISSIONS && IsPrefix(e.0, path) && e.1 == RequiredPermission(path).value
        && forall f :: f in ROUTE_PERMISSIONS && IsPrefix(f.0, path) ==> |f.0| <= |e.0|
  {
    var m := Matching(ROUTE_PERMISSIONS, path);
    if m != [] {
      var e := Longest(m);
      assert e in ROUTE_PERMISSIONS && IsPrefix(e.0, path);
    } else {
      forall e | e in ROUTE_PERMISSIONS ensures !IsPrefix(e.0, path) {
        assert e !in m;
      }
    }
  }

  /** The guard. `hasPermission` answers the permission query, or throws. */
  function Guard(signedIn: bool, path: string, hasPermission: string -> Attempt<bool>): (d: Decision)
    ensures d == Redirect("/auth/login") <==> !signedIn
    ensures d == Allow ==> RequiredPermission(path).Some? && hasPermission(RequiredPermission(path).value) == Returned(true)
    ensures d != Allow && signedIn ==> d == Redirect("/")
  {
    if !signedIn then Redirect("/auth/login")
    else match RequiredPermission(path)
      case None => Redirect("/")
      case Some(p) =>
        match hasPermission(p)
        case Threw => Redirect("/")
        case Returned(ok) => if ok then Allow else Redirect("/")
  }

  /** Anyone not signed in goes to the sign-in page, whatever the permission
      query would have said. */
  lemma SignedOutToLogin(path: string, hasPermission: string -> Attempt<bool>, other: string -> Attempt<bool>)
    ensures Guard(false, path, hasPermission) == Redirect("/auth/login")
    ensures Guard(false, path, hasPermission) == Guard(false, path, other)
  {
  }

  /** A signed-in user is let through exactly when the most specific route
      requires a permission that the query grants; every other outcome,
      a thrown query included, goes home. */
  lemma AllowIffPermitted(path: string, hasPermission: string -> Attempt<bool>)
    ensures Guard(true, path, hasPermission) == Allow <==>
      RequiredPermission(path).Some? && hasPermission(RequiredPermission(path).value) == Returned(true)
    ensures Guard(true, path, hasPermission) != Allow ==> Guard(true, path, hasPermission) == Redirect("/")
  {
  }

  lemma AdminRouteFacts()
    ensures ROUTE_PERMISSIONS[0] == ("/admin", "system.manage")
    ensures forall e :: e in ROUTE_PERMISSIONS ==> |e.0| >= 6 && e.0[..6] == "/admin"
  {
  }

  /** Paths outside `/admin` have no permission and go home. */
  lemma UnmappedPathGoesHome(path: string, hasPermission: string -> Attempt<bool>)
    requires !IsPrefix("/admin", path)
    ensures RequiredPermission(path).None?
    ensures Guard(true, path, hasPermission) == Redirect("/")
  {
    AdminRouteFacts();
    forall e | e in ROUTE_PERMISSIONS ensures !IsPrefix(e.0, path) {
      if IsPrefix(e.0, path) {
        PrefixTransitive("/admin", e.0, path);
      }
    }
    RequiredIsMostSpecific(path);
  }

  lemma SubRouteFacts()
    ensures forall i :: 1 <= i < |ROUTE_PERMISSIONS| ==> |ROUTE_PERMISSIONS[i].0| > 7 && ROUTE_PERMISSIONS[i].0[6] == '/'
    ensures forall i :: 1 <= i < |ROUTE_PERMISSIONS| - 1 ==> ROUTE_PERMISSIONS[i].0[7] != 'u'
    ensures ROUTE_PERMISSIONS[5] == ("/admin/users", "users.view")
  {
  }

  /** Matching is on raw prefixes: a path that starts with `/admin` but does
      not continue with `/` (such as `/administrator`) falls under `/admin`. */
  lemma BareAdminPrefix(path: string)
    requires IsPrefix("/admin", path) && (|path| == 6 || path[6] != '/')
    ensures RequiredPermission(path) == Some("system.manage")
  {
    AdminRouteFacts();
    SubRouteFacts();
    var m := Matching(ROUTE_PERMISSIONS, path);
    assert ROUTE_PERMISSIONS[0] in m;
    var e := Longest(m);
    assert e in ROUTE_PERMISSIONS && IsPrefix(e.0, path);
  }

  lemma AdministratorNeedsSystemManage()
    ensures RequiredPermission("/administrator") == Some("system.manage")
  {
    BareAdminPrefix("/administrator");
  }

  /** Among the routes, only `/admin/users` has a `u` after `/admin/`. */
  lemma UsersRouteUnique()
    ensures forall e :: e in ROUTE_PERMISSIONS && |e.0| > 7 && e.0[7] == 'u' ==> e == ("/admin/users", "users.view")
  {
  }

  /** A sub-route takes its own, more specific permission: everything under
      `/admin/users` needs `users.view`. */
  lemma UsersNeedUsersView(path: string)
    requires IsPrefix("/admin/users", path)
    ensures RequiredPermission(path) == Some("users.view")
  {
    var users := ("/admin/users", "users.view");
    assert users == ROUTE_PERMISSIONS[5];
    var m := Matching(ROUTE_PERMISSIONS, path);
    assert users in m;
    var e := Longest(m);
    assert |e.0| >= 12;
    assert e.0 == path[..|e.0|];
    assert path[7] == "/admin/users"[7] == 'u';
    assert e.0[7] == path[7];
    UsersRouteUnique();
  }
}

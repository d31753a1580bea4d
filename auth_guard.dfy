/** The global route guard (`middleware/auth.ts`): an ordered decision over
    the public pages, the session, the admin role and the subscription. The
    awaited queries are inputs: each either returns or throws. */
module AuthGuard {
  import opened Wrappers
  import opened Text

  datatype Decision = Allow | Redirect(to: string)

  const PUBLIC_PAGES: seq<string> := ["/auth/login", "/auth/signup", "/"]

  /** What `client.auth.getSession()` resolves to. */
  datatype SessionReply = SessionReply(hasSession: bool, hasError: bool)

  /** `roles?.some(r => r.role.name === 'admin')`: the role query returned
      rows, and one of them names the admin role. */
  predicate IsAdmin(roles: Option<seq<string>>)
  {
    roles.Some? && exists k :: 0 <= k < |roles.value| && roles.value[k] == "admin"
  }

  /** The guard. `session`, `roles` and `subscription` are the results of the
      session, role and subscription queries; `subscription` is whether an
      active subscription row came back. */
  function Guard(path: string, session: Attempt<SessionReply>, roles: Attempt<Option<seq<string>>>,
                 requiresSubscription: bool, subscription: Attempt<bool>): (d: Decision)
    ensures path in PUBLIC_PAGES ==> d == Allow
    ensures d == Redirect("/") ==> IsPrefix("/admin", path) && roles.Returned? && !IsAdmin(roles.value)
    ensures d == Redirect("/subscription") ==> requiresSubscription && subscription == Returned(false)
    ensures d == Redirect("/auth/login") ==>
      || session.Threw? || !session.value.hasSession || session.value.hasError
      || (IsPrefix("/admin", path) && roles.Threw?)
      || (requiresSubscription && subscription.Threw?)
  {
    if path in PUBLIC_PAGES then Allow
    else match session
      case Threw => Redirect("/auth/login")
      case Returned(reply) =>
        if !reply.hasSession then Redirect("/auth/login")
        else if reply.hasError then Redirect("/auth/login")
        else if IsPrefix("/admin", path) && roles.Threw? then Redirect("/auth/login")
        else if IsPrefix("/admin", path) && !IsAdmin(roles.value) then Redirect("/")
        else if !requiresSubscription then Allow
        else match subscription
          case Threw => Redirect("/auth/login")
          case Returned(active) => if active then Allow else Redirect("/subscription")
  }

  /** The three public pages are let through before any query. */
  lemma PublicPagesSkipQueries(path: string, session: Attempt<SessionReply>, roles: Attempt<Option<seq<string>>>,
                               requiresSubscription: bool, subscription: Attempt<bool>)
    requires path in PUBLIC_PAGES
    ensures Guard(path, session, roles, requiresSubscription, subscription) == Allow
    ensures path == "/auth/login" || path == "/auth/signup" || path == "/"
  {
  }

  /** Elsewhere, a missing session, a session error or a failing session query
      send the visitor to the sign-in page. */
  lemma NoSessionToLogin(path: string, session: Attempt<SessionReply>, roles: Attempt<Option<seq<string>>>,
                         requiresSubscription: bool, subscription: Attempt<bool>)
    requires path !in PUBLIC_PAGES
    requires session.Threw? || !session.value.hasSession || session.value.hasError
    ensures Guard(path, session, roles, requiresSubscription, subscription) == Redirect("/auth/login")
  {
  }

  /** Under `/admin`, a user without the admin role (no rows, or no row
      naming it) goes home, and this is decided before the subscription rule. */
  lemma NonAdminGoesHome(path: string, reply: SessionReply, roles: Option<seq<string>>,
                         requiresSubscription: bool, subscription: Attempt<bool>)
    requires path !in PUBLIC_PAGES && reply.hasSession && !reply.hasError
    requires IsPrefix("/admin", path) && !IsAdmin(roles)
    ensures Guard(path, Returned(reply), Returned(roles), requiresSubscription, subscription) == Redirect("/")
  {
  }

  /** A page flagged `requiresSubscription` sends a user without an active
      subscription to `/subscription`; a failing query sends them to sign in. */
  lemma SubscriptionRule(path: string, reply: SessionReply, roles: Attempt<Option<seq<string>>>, subscription: Attempt<bool>)
    requires path !in PUBLIC_PAGES && reply.hasSession && !reply.hasError
    requires IsPrefix("/admin", path) ==> roles.Returned? && IsAdmin(roles.value)
    ensures subscription == Returned(false) ==> Guard(path, Returned(reply), roles, true, subscription) == Redirect("/subscription")
    ensures subscription.Threw? ==> Guard(path, Returned(reply), roles, true, subscription) == Redirect("/auth/login")
    ensures subscription == Returned(true) ==> Guard(path, Returned(reply), roles, true, subscription) == Allow
  {
  }

  /** The whole guard at once: a page is let through exactly when it is public,
      or the session is sound, the admin area is entered only with the admin
      role, and a subscription page only with an active subscription. */
  lemma AllowIff(path: string, session: Attempt<SessionReply>, roles: Attempt<Option<seq<string>>>,
                 requiresSubscription: bool, subscription: Attempt<bool>)
    ensures Guard(path, session, roles, requiresSubscription, subscription) == Allow <==>
      path in PUBLIC_PAGES
      || (&& session.Returned? && session.value.hasSession && !session.value.hasError
          && (IsPrefix("/admin", path) ==> roles.Returned? && IsAdmin(roles.value))
          && (requiresSubscription ==> subscription == Returned(true)))
  {
  }

  /** Every redirect goes to one of three places. */
  lemma RedirectTargets(path: string, session: Attempt<SessionReply>, roles: Attempt<Option<seq<string>>>,
                        requiresSubscription: bool, subscription: Attempt<bool>)
    ensures match Guard(path, session, roles, requiresSubscription, subscription)
      case Allow => true
      case Redirect(to) => to in {"/auth/login", "/", "/subscription"}
  {
  }
}

/** The four route guards and the chains the routes put them in. Each guard
    decides from the session's user id and, for the profile guards, the stored
    user's `Profile_created_status`; none of them writes anything. */
module Guards {
  import opened Wrappers
  import opened Models
  import Store

  /** What a guard does with a request: hand it on, or answer with a redirect. */
  datatype Decision = Next | Redirect(path: string)

  /** `requireAuth`: only a session with a user id may pass. */
  function RequireAuth(session: Option<UserId>): (d: Decision)
    ensures d == Next <==> session.Some?
    ensures d.Redirect? ==> d.path == "/sign_in"
  {
    if session.None? then Redirect("/sign_in") else Next
  }

  /** `requireGuest`: only a session without a user id may pass. */
  function RequireGuest(session: Option<UserId>): (d: Decision)
    ensures d == Next <==> session.None?
    ensures d.Redirect? ==> d.path == "/dashboard"
  {
    if session.Some? then Redirect("/dashboard") else Next
  }

  /** `requireProfile`: the session's user must exist and have created a profile. */
  function RequireProfile(users: seq<User>, session: Option<UserId>): (d: Decision)
    ensures d == Next <==>
      Store.FindById(users, session).Some? && Store.FindById(users, session).value.profileCreated
    ensures d.Redirect? ==>
      d.path == if Store.FindById(users, session).None? then "/sign_in" else "/Profile_create"
  {
    match Store.FindById(users, session)
    case None => Redirect("/sign_in")
    case Some(u) => if !u.profileCreated then Redirect("/Profile_create") else Next
  }

  /** `requireNoProfile`: the session's user must exist and not yet have a profile. */
  function RequireNoProfile(users: seq<User>, session: Option<UserId>): (d: Decision)
    ensures d == Next <==>
      Store.FindById(users, session).Some? && !Store.FindById(users, session).value.profileCreated
    ensures d.Redirect? ==>
      d.path == if Store.FindById(users, session).None? then "/sign_in" else "/dashboard"
  {
    match Store.FindById(users, session)
    case None => Redirect("/sign_in")
    case Some(u) => if u.profileCreated then Redirect("/dashboard") else Next
  }

  /** Two guards in route order: the second runs only if the first passes.
      The guards only read, so deciding both and keeping the first redirect is the same. */
  function Then(first: Decision, second: Decision): (d: Decision)
    ensures d == Next <==> first == Next && second == Next
    ensures first.Redirect? ==> d == first
    ensures first == Next ==> d == second
  {
    if first.Redirect? then first else second
  }

  /** The chain of `GET /Profile_create` and `POST /create-profile`. */
  function ProfileCreateGate(users: seq<User>, session: Option<UserId>): (d: Decision)
    ensures d == Next <==> RequireAuth(session) == Next && RequireNoProfile(users, session) == Next
    ensures d.Redirect? ==>
      d == if RequireAuth(session).Redirect? then RequireAuth(session) else RequireNoProfile(users, session)
  {
    Then(RequireAuth(session), RequireNoProfile(users, session))
  }

  /** The chain of `GET /dashboard`. */
  function DashboardGate(users: seq<User>, session: Option<UserId>): (d: Decision)
    ensures d == Next <==> RequireAuth(session) == Next && RequireProfile(users, session) == Next
    ensures d.Redirect? ==>
      d == if RequireAuth(session).Redirect? then RequireAuth(session) else RequireProfile(users, session)
  {
    Then(RequireAuth(session), RequireProfile(users, session))
  }

  /** For every session exactly one of `requireAuth` and `requireGuest` passes,
      and each redirects to its one fixed page exactly when the other passes. */
  lemma AuthGuestExclusive(session: Option<UserId>)
    ensures (RequireAuth(session) == Next) != (RequireGuest(session) == Next)
    ensures RequireAuth(session) == Redirect("/sign_in") <==> session.None?
    ensures RequireAuth(session) == Next <==> session.Some?
    ensures RequireGuest(session) == Redirect("/dashboard") <==> session.Some?
    ensures RequireGuest(session) == Next <==> session.None?
  {
  }

  /** A missing session user sends both profile guards to the sign-in page;
      otherwise exactly one of them passes, chosen by `Profile_created_status`,
      and the other redirects to the page for the opposite state. */
  lemma ProfileGuardsExclusive(users: seq<User>, session: Option<UserId>)
    ensures Store.FindById(users, session).None? ==>
      RequireProfile(users, session) == Redirect("/sign_in") &&
      RequireNoProfile(users, session) == Redirect("/sign_in")
    ensures Store.FindById(users, session).Some? ==>
      var u := Store.FindById(users, session).value;
      (RequireProfile(users, session) == Next <==> u.profileCreated) &&
      (RequireNoProfile(users, session) == Next <==> !u.profileCreated) &&
      (RequireProfile(users, session) == Next || RequireProfile(users, session) == Redirect("/Profile_create")) &&
      (RequireNoProfile(users, session) == Next || RequireNoProfile(users, session) == Redirect("/dashboard"))
  {
  }

  /** The dashboard is reached exactly by a signed-in, existing user with a profile;
      no user id or a stale one goes to sign-in, a user without a profile to profile creation. */
  lemma DashboardGateSpec(users: seq<User>, session: Option<UserId>)
    ensures DashboardGate(users, session) == Next <==>
      session.Some? && session.value < |users| && users[session.value].profileCreated
    ensures session.None? || session.value >= |users| ==>
      DashboardGate(users, session) == Redirect("/sign_in")
    ensures session.Some? && session.value < |users| && !users[session.value].profileCreated ==>
      DashboardGate(users, session) == Redirect("/Profile_create")
  {
  }

  /** Profile creation is reached exactly by a signed-in, existing user without a profile;
      a user who already has one is sent to the dashboard. */
  lemma ProfileCreateGateSpec(users: seq<User>, session: Option<UserId>)
    ensures ProfileCreateGate(users, session) == Next <==>
      session.Some? && session.value < |users| && !users[session.value].profileCreated
    ensures session.None? || session.value >= |users| ==>
      ProfileCreateGate(users, session) == Redirect("/sign_in")
    ensures session.Some? && session.value < |users| && users[session.value].profileCreated ==>
      ProfileCreateGate(users, session) == Redirect("/dashboard")
  {
  }

  /** For one session and store, the dashboard and profile-creation chains never both pass. */
  lemma GatesDisjoint(users: seq<User>, session: Option<UserId>)
    ensures !(DashboardGate(users, session) == Next && ProfileCreateGate(users, session) == Next)
  {
  }

  /** A session whose user id names no stored user: the guest-only pages send it to
      the dashboard and the dashboard sends it back to sign-in, so the two redirect
      to each other until the session is gone. */
  lemma StaleSessionBounces(users: seq<User>, id: UserId)
    requires id >= |users|
    ensures RequireGuest(Some(id)) == Redirect("/dashboard")
    ensures DashboardGate(users, Some(id)) == Redirect("/sign_in")
  {
  }
}

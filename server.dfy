/** The account workflow of server.js: sign-up, sign-in, profile creation,
    dashboard, logout and PIN recovery, each behind its route's guard chain,
    over an in-memory user store, profile store and one session. */
module Server {
  import opened Wrappers
  import opened Models
  import opened Store
  import opened Config
  import Guards

  /** What a request ends in: a redirect, or one of the rendered pages with what it is given. */
  datatype Outcome =
    | Redirect(path: string)
    | SignInPage(error: Option<string>)
    | RecoverPinPage(error: Option<string>, success: Option<string>)
    | ProfileCreatePage(user: Doc)
    | DashboardPage(user: Doc, profile: Option<Profile>)

  /** The message PIN recovery hands to the mail service: service and template ids,
      the template parameters (recipient, PIN, sender name) and the two keys. */
  datatype Mail = Mail(
    serviceId: string,
    templateId: string,
    toEmail: string,
    pin: string,
    senderName: string,
    publicKey: string,
    privateKey: string)

  const InvalidCredentials := "Invalid email or PIN"
  const NoAccount := "No account found"
  const PinSent := "PIN sent to your email"
  const SendFailed := "Failed to send PIN. Check Render logs for details."
  const Sender := "UniVerse Team"

  /** A user with this email exists and the first such user's PIN equals the submitted one
      (`String(user.pin) === String(pin)`; both are strings here). */
  predicate CredentialsMatch(users: seq<User>, email: string, pin: string)
    ensures CredentialsMatch(users, email, pin) <==>
      exists i :: 0 <= i < |users| && users[i].email == email && users[i].pin == pin &&
        forall j :: 0 <= j < i ==> users[j].email != email
  {
    FindUserByEmail(users, email).Some? && users[FindUserByEmail(users, email).value].pin == pin
  }

  /** The dashboard's user: the plain user document with its `pin` key deleted. */
  function WithoutPin(d: Doc): (r: Doc)
    ensures "pin" !in r
    ensures r.Keys == d.Keys - {"pin"}
    ensures forall k :: k in r ==> r[k] == d[k]
  {
    d - {"pin"}
  }

  /** The page `GET /dashboard` renders once its guards passed: the user without
      the PIN and the first profile under the user's email, or null. */
  function DashboardView(users: seq<User>, profiles: seq<Profile>, id: UserId): (out: Outcome)
    requires id < |users|
    ensures out.DashboardPage?
    ensures "pin" !in out.user
    ensures out.user.Keys == LeanUser(id, users[id]).Keys - {"pin"}
    ensures forall k :: k in out.user ==> out.user[k] == LeanUser(id, users[id])[k]
    ensures out.profile.Some? ==>
      FindProfileByEmail(profiles, users[id].email).Some? &&
      out.profile.value == profiles[FindProfileByEmail(profiles, users[id].email).value]
    ensures out.profile.None? <==> forall j :: 0 <= j < |profiles| ==> profiles[j].email != users[id].email
  {
    DashboardPage(WithoutPin(LeanUser(id, users[id])), ProfileOf(profiles, users[id].email))
  }

  /** The message sent to the mail service for user `u` under configuration `env`. */
  function PinMail(env: map<string, string>, u: User): (m: Mail)
    requires forall k :: k in MailKeys ==> k in env
    ensures m.toEmail == u.email && m.pin == u.pin && m.senderName == "UniVerse Team"
    ensures m.serviceId == env["EMAILJS_SERVICE_ID"] && m.templateId == env["EMAILJS_TEMPLATE_ID"]
    ensures m.publicKey == env["EMAILJS_PUBLIC_KEY"] && m.privateKey == env["EMAILJS_PRIVATE_KEY"]
  {
    Mail(env["EMAILJS_SERVICE_ID"], env["EMAILJS_TEMPLATE_ID"], u.email, u.pin, Sender,
         env["EMAILJS_PUBLIC_KEY"], env["EMAILJS_PRIVATE_KEY"])
  }

  /** The server's state: both collections and the one session the requests run in. */
  class App {
    var users: seq<User>
    var profiles: seq<Profile>
    var session: Option<UserId>

    constructor (users0: seq<User>, profiles0: seq<Profile>, session0: Option<UserId>)
      ensures users == users0 && profiles == profiles0 && session == session0
    {
      users, profiles, session := users0, profiles0, session0;
    }

    /** `POST /` (guest only): register unless the email is taken; either way go to sign-in. */
    method PostSignUp(name: string, email: string, dob: string, phone: string, pin: string)
      returns (out: Outcome)
      modifies this`users
      ensures old(session).Some? ==> out == Redirect("/dashboard") && users == old(users)
      ensures old(session).None? ==> out == Redirect("/sign_in")
      ensures old(session).None? && FindUserByEmail(old(users), email).Some? ==> users == old(users)
      ensures old(session).None? && FindUserByEmail(old(users), email).None? ==>
        users == old(users) + [User(name, email, phone, pin, dob, false)]
      ensures EmailsUnique(old(users)) ==> EmailsUnique(users)
      ensures Consistent(old(users), profiles) ==> Consistent(users, profiles)
      ensures ProfilesOwned(old(users), profiles) ==> ProfilesOwned(users, profiles)
    {
      var gate := Guards.RequireGuest(session);
      if gate.Redirect? {
        return Redirect(gate.path);
      }
      var taken := FindUserByEmail(users, email);
      if taken.Some? {
        return Redirect("/sign_in");
      }
      ghost var before := users;
      users := users + [User(name, email, phone, pin, dob, false)];
      assert forall i :: 0 <= i < |before| ==> users[i] == before[i];
      out := Redirect("/sign_in");
    }

    /** `POST /sign_in` (guest only): on a known email with the matching PIN bind the
        session to that user and send them on by their profile flag; otherwise show
        one error for both causes and leave the session alone. */
    method PostSignIn(email: string, pin: string) returns (out: Outcome)
      modifies this`session
      ensures old(session).Some? ==> out == Redirect("/dashboard") && session == old(session)
      ensures out == SignInPage(Some(InvalidCredentials)) <==>
        old(session).None? && !CredentialsMatch(users, email, pin)
      ensures out.SignInPage? ==> session == old(session)
      ensures old(session).None? && CredentialsMatch(users, email, pin) ==>
        session == FindUserByEmail(users, email) &&
        out == Redirect(if users[session.value].profileCreated then "/dashboard" else "/Profile_create")
      // where a successful sign-in sends the user, that route's guards let them in
      ensures old(session).None? && out == Redirect("/dashboard") ==>
        Guards.DashboardGate(users, session) == Guards.Next
      ensures out == Redirect("/Profile_create") ==>
        Guards.ProfileCreateGate(users, session) == Guards.Next
    {
      var gate := Guards.RequireGuest(session);
      if gate.Redirect? {
        return Redirect(gate.path);
      }
      var found := FindUserByEmail(users, email);
      if found.None? || users[found.value].pin != pin {
        return SignInPage(Some(InvalidCredentials));
      }
      session := found;
      if users[found.value].profileCreated {
        return Redirect("/dashboard");
      }
      out := Redirect("/Profile_create");
    }

    /** `GET /Profile_create` (signed in, no profile yet): the form, given the plain user document. */
    method GetProfileCreate() returns (out: Outcome)
      ensures Guards.ProfileCreateGate(users, session).Redirect? ==>
        out == Redirect(Guards.ProfileCreateGate(users, session).path)
      ensures Guards.ProfileCreateGate(users, session) == Guards.Next ==>
        session.Some? && session.value < |users| &&
        out == ProfileCreatePage(LeanUser(session.value, users[session.value]))
    {
      var gate := Guards.ProfileCreateGate(users, session);
      if gate.Redirect? {
        return Redirect(gate.path);
      }
      var id := session.value;
      out := ProfileCreatePage(LeanUser(id, users[id]));
    }

    /** The handler of `POST /create-profile`: upsert the profile under the session
        user's email, set the user's profile flag, go to the dashboard; with no such
        user, go to sign-in and write nothing. */
    method CreateProfile(name: string, gender: string, bio: string) returns (out: Outcome)
      modifies this`users, this`profiles
      ensures FindById(old(users), session).None? ==>
        out == Redirect("/sign_in") && users == old(users) && profiles == old(profiles)
      ensures FindById(old(users), session).Some? ==>
        var id := session.value;
        var u := old(users)[id];
        out == Redirect("/dashboard") &&
        profiles == Upsert(old(profiles), Profile(name, u.email, bio, gender)) &&
        users == old(users)[id := u.(profileCreated := true)]
      ensures EmailsUnique(old(users)) ==> EmailsUnique(users)
      ensures ProfileEmailsUnique(old(profiles)) ==> ProfileEmailsUnique(profiles)
      ensures Consistent(old(users), old(profiles)) ==> Consistent(users, profiles)
      ensures ProfilesOwned(old(users), old(profiles)) ==> ProfilesOwned(users, profiles)
      ensures out == Redirect("/dashboard") ==> Guards.DashboardGate(users, session) == Guards.Next
    {
      var user := FindById(users, session);
      if user.None? {
        return Redirect("/sign_in");
      }
      var id := session.value;
      var u := user.value;
      ghost var users0, profiles0 := users, profiles;
      var p := Profile(name, u.email, bio, gender);
      profiles := Upsert(profiles, p);
      users := users[id := u.(profileCreated := true)];
      if ProfilesOwned(users0, profiles0) {
        UpsertKeepsOwned(users0, profiles0, id, p);
      }
      assert ProfileOf(profiles, u.email) == Some(p);
      assert Consistent(users0, profiles0) ==> Consistent(users, profiles) by {
        if Consistent(users0, profiles0) {
          forall i | 0 <= i < |users| && users[i].profileCreated
            ensures FindProfileByEmail(profiles, users[i].email).Some?
          {
            if i != id {
              assert users[i] == users0[i];
              assert FindProfileByEmail(profiles0, users[i].email).Some?;
            }
          }
        }
      }
      out := Redirect("/dashboard");
    }

    /** `POST /create-profile`: `requireAuth`, `requireNoProfile`, then the handler. */
    method PostCreateProfile(name: string, gender: string, bio: string) returns (out: Outcome)
      modifies this`users, this`profiles
      ensures Guards.ProfileCreateGate(old(users), session).Redirect? ==>
        out == Redirect(Guards.ProfileCreateGate(old(users), session).path) &&
        users == old(users) && profiles == old(profiles)
      ensures Guards.ProfileCreateGate(old(users), session) == Guards.Next ==>
        var id := session.value;
        var u := old(users)[id];
        out == Redirect("/dashboard") &&
        profiles == Upsert(old(profiles), Profile(name, u.email, bio, gender)) &&
        users == old(users)[id := u.(profileCreated := true)]
      ensures EmailsUnique(old(users)) ==> EmailsUnique(users)
      ensures ProfileEmailsUnique(old(profiles)) ==> ProfileEmailsUnique(profiles)
      ensures Consistent(old(users), old(profiles)) ==> Consistent(users, profiles)
      ensures ProfilesOwned(old(users), old(profiles)) ==> ProfilesOwned(users, profiles)
      // a profile is created once: past the guards, on an owned store, the upsert appends
      ensures
        (Guards.ProfileCreateGate(old(users), session) == Guards.Next &&
         EmailsUnique(old(users)) && ProfilesOwned(old(users), old(profiles))) ==>
        profiles == old(profiles) + [Profile(name, old(users)[session.value].email, bio, gender)]
    {
      var gate := Guards.ProfileCreateGate(users, session);
      if gate.Redirect? {
        return Redirect(gate.path);
      }
      if EmailsUnique(users) && ProfilesOwned(users, profiles) {
        var u := users[session.value];
        UnflaggedHasNoProfile(users, profiles, session.value, Profile(name, u.email, bio, gender));
      }
      out := CreateProfile(name, gender, bio);
    }

    /** `GET /dashboard` (signed in, with a profile): the user without the PIN and their profile. */
    method GetDashboard() returns (out: Outcome)
      ensures Guards.DashboardGate(users, session).Redirect? ==>
        out == Redirect(Guards.DashboardGate(users, session).path)
      ensures Guards.DashboardGate(users, session) == Guards.Next ==>
        session.Some? && session.value < |users| &&
        out == DashboardView(users, profiles, session.value)
      // the rendered page never carries a PIN
      ensures out.DashboardPage? ==> "pin" !in out.user
      // on a consistent store the profile is always found
      ensures Consistent(users, profiles) && out.DashboardPage? ==> out.profile.Some?
    {
      var gate := Guards.DashboardGate(users, session);
      if gate.Redirect? {
        return Redirect(gate.path);
      }
      out := DashboardView(users, profiles, session.value);
    }

    /** `GET /logout` (signed in): destroy the session and go to sign-in. Without a
        user id the guard sends the request to the same page, so both paths end alike. */
    method GetLogout() returns (out: Outcome)
      modifies this`session
      ensures out == Redirect("/sign_in")
      ensures session == None
      ensures Guards.RequireAuth(session) == Guards.Redirect("/sign_in")
    {
      var gate := Guards.RequireAuth(session);
      if gate.Redirect? {
        return Redirect(gate.path);
      }
      session := None;
      out := Redirect("/sign_in");
    }

    /** `POST /recover-pin` (guest only). First the mail settings are checked, then
        the email is looked up, then the PIN is mailed to it; `sendOk` is whether the
        mail service accepted the message, and `mail` is the message handed to it. */
    method PostRecoverPin(email: string, env: map<string, string>, sendOk: bool)
      returns (out: Outcome, mail: Option<Mail>)
      ensures session.Some? ==> out == Redirect("/dashboard") && mail == None
      // the configuration check comes first: its answer does not depend on the store or the email
      ensures session.None? && MissingKeys(env, MailKeys) != [] ==>
        out == RecoverPinPage(Some(MisconfiguredMessage(MissingKeys(env, MailKeys))), None) &&
        mail == None
      ensures session.None? && MissingKeys(env, MailKeys) == [] && FindUserByEmail(users, email).None? ==>
        out == RecoverPinPage(Some(NoAccount), None) && mail == None
      ensures session.None? && MissingKeys(env, MailKeys) == [] && FindUserByEmail(users, email).Some? ==>
        mail == Some(PinMail(env, users[FindUserByEmail(users, email).value])) &&
        out == (if sendOk then RecoverPinPage(None, Some(PinSent)) else RecoverPinPage(Some(SendFailed), None))
      // a PIN is only ever mailed to the address of the account it belongs to
      ensures mail.Some? ==>
        FindUserByEmail(users, email).Some? && mail.value.toEmail == email &&
        mail.value.pin == users[FindUserByEmail(users, email).value].pin
    {
      mail := None;
      var gate := Guards.RequireGuest(session);
      if gate.Redirect? {
        return Redirect(gate.path), None;
      }
      var missing := CollectMissing(env);
      if |missing| > 0 {
        return RecoverPinPage(Some(MisconfiguredMessage(missing)), None), None;
      }
      var found := FindUserByEmail(users, email);
      if found.None? {
        return RecoverPinPage(Some(NoAccount), None), None;
      }
      mail := Some(PinMail(env, users[found.value]));
      if sendOk {
        out := RecoverPinPage(None, Some(PinSent));
      } else {
        out := RecoverPinPage(Some(SendFailed), None);
      }
    }
  }
  /** The whole workflow for a guest whose email is not yet registered: sign up,
      sign in with the same PIN, create a profile, open the dashboard, log out.
      Returns the dashboard page and the decision `requireAuth` takes afterwards. */
  method Journey(users0: seq<User>, profiles0: seq<Profile>,
                 name: string, email: string, dob: string, phone: string, pin: string,
                 displayName: string, gender: string, bio: string)
    returns (page: Outcome, afterLogout: Guards.Decision)
    requires FindUserByEmail(users0, email).None?
    ensures page.DashboardPage? && "pin" !in page.user
    ensures page.profile == Some(Profile(displayName, email, bio, gender))
    ensures afterLogout == Guards.Redirect("/sign_in")
  {
    var app := new App(users0, profiles0, None);
    var out := app.PostSignUp(name, email, dob, phone, pin);
    assert out == Redirect("/sign_in");
    assert app.users[|users0|] == User(name, email, phone, pin, dob, false);
    out := app.PostSignIn(email, pin);
    assert app.session == Some(|users0|);
    assert out == Redirect("/Profile_create");
    ghost var id := |users0|;
    assert Guards.ProfileCreateGate(app.users, app.session) == Guards.Next;
    out := app.PostCreateProfile(displayName, gender, bio);
    ghost var p := Profile(displayName, email, bio, gender);
    assert ProfileOf(app.profiles, email) == Some(p);
    assert app.users[id].email == email && app.users[id].profileCreated;
    assert Guards.DashboardGate(app.users, app.session) == Guards.Next;
    page := app.GetDashboard();
    assert page == DashboardView(app.users, app.profiles, id);
    out := app.GetLogout();
    afterLogout := Guards.RequireAuth(app.session);
  }
}

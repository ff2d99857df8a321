# Access control and account workflow of a social-profile server

This project models the request handling of `server.js` in Dafny. The server keeps
users and their profiles in a document store and one signed-in user id per browser
session. Every route first runs a chain of guards. A guard either passes the
request on or answers with a redirect:

- `requireAuth` and `requireGuest` look only at the session's user id;
- `requireProfile` and `requireNoProfile` also look at the stored user's
  `Profile_created_status`.

The route handlers then do the following:

- sign-up appends a user unless the email is taken;
- sign-in checks email and PIN and binds the session;
- profile creation upserts the profile by email and sets the flag;
- the dashboard shows the user without the PIN;
- logout destroys the session;
- PIN recovery checks its mail settings, looks up the account and mails the PIN.

Layout:

- `wrappers.dfy`: `Option`.
- `models.dfy`: the `User` and `Profile` documents (models/User.js, models/Profile.js), and the plain-object form of a user.
- `store.dfy`: the collections as sequences, with their queries (`findById` and `findOne({ email })` on either collection), the upsert, and invariants over the store.
- `guards.dfy`: the four guards, the two guard chains that end in the profile pages, and lemmas about them.
- `config.dfy`: the check of the four mail-service settings in PIN recovery.
- `server.dfy`: the class `App`, whose fields are the users, the profiles and the session, with one method per route. There is also a client method, `Journey`, that runs the whole sign-up through logout flow.

Modelling choices:

- A user's `_id` is the position at which sign-up appended the user. No flow deletes a user, so a stale session is one whose id is not below the number of users.
- `findOne` returns the first match in insertion order.
- A session whose user id names no stored user is sent back and forth between `/sign_in` and `/dashboard` until the session ends. `Guards.StaleSessionBounces` states both halves of this loop.
- The user passed to a view is a field map that keeps the schema's field names. This lets the dashboard's `delete user.pin` be stated as removing a key.
- The mail service is a foreign call. Whether it accepts the message is the parameter `sendOk`. The message handed to it is returned as `mail`.
- The environment is the parameter `env`. A setting counts as missing when it is absent or empty, because that is what `!process.env[key]` tests.

## Model

| member | source | states |
|---|---|---|
| `Store.FirstWithEmail` | server.js:97 | `findOne({ email })`, used on users (server.js:75, 97, 178) and on profiles (server.js:224): the result is the position of the first document with the email, and nothing is found exactly when no document has it |
| `Store.FindById` | server.js:46 | `findById`, also used at server.js:53, 115, 126 and 223: a user is found exactly when the session holds an id that names a stored user, and it is that user |
| `Store.ProfileOf` | server.js:224 | the profile document `findOne({ email })` returns: it is null exactly when no profile has the email; otherwise it is the stored profile at the first matching position |
| `Store.Upsert` | server.js:130-134 | afterwards the email query finds exactly the written profile. The first existing match is replaced by the written profile and nothing is added; otherwise the profile is appended. Every other profile keeps its place and content. No email loses its profile. Uniqueness of profiles by email is preserved |
| `Store.UnflaggedHasNoProfile` | server.js:75-76 | with unique user emails, and every profile belonging to a flagged user, a user without the flag has no profile under their email, so the profile-creation upsert appends a new one |
| `Store.UpsertKeepsOwned` | server.js:130-137 | upserting a profile under a user's email and setting that user's flag keeps every profile owned by a flagged user |
| `Guards.RequireAuth` | server.js:35-38 | passes exactly when the session holds a user id; otherwise redirects to `/sign_in` |
| `Guards.RequireGuest` | server.js:40-43 | passes exactly when the session holds no user id; otherwise redirects to `/dashboard` |
| `Guards.RequireProfile` | server.js:45-50 | passes exactly when the session's user exists and has `Profile_created_status` set; a missing user goes to `/sign_in`, a user without a profile to `/Profile_create` |
| `Guards.RequireNoProfile` | server.js:52-57 | passes exactly when the session's user exists and has not yet created a profile; a missing user goes to `/sign_in`, a user with a profile to `/dashboard` |
| `Guards.Then` | server.js:110-113 | two middlewares in route order: the chain passes exactly when both pass, and otherwise answers with the first failing guard's redirect |
| `Guards.ProfileCreateGate` | server.js:120-123 | the chain `requireAuth`, `requireNoProfile` of the profile-creation routes (also server.js:110-113): it passes exactly when both guards do, and otherwise answers with the first failing guard's redirect |
| `Guards.DashboardGate` | server.js:218-221 | the chain `requireAuth`, `requireProfile` of the dashboard: it passes exactly when both guards do, and otherwise answers with the first failing guard's redirect |
| `Guards.AuthGuestExclusive` | server.js:35-43 | for every session exactly one of `requireAuth` and `requireGuest` passes; `requireAuth` redirects to `/sign_in` iff there is no user id, `requireGuest` to `/dashboard` iff there is one |
| `Guards.ProfileGuardsExclusive` | server.js:45-57 | with no stored user for the session both profile guards redirect to `/sign_in`; otherwise exactly one passes, `requireProfile` iff `Profile_created_status` is set, and the other redirects to `/Profile_create` or `/dashboard` respectively |
| `Guards.DashboardGateSpec` | server.js:218-222 | `requireAuth` then `requireProfile` passes iff the session holds an existing user with a profile; no or a stale id goes to `/sign_in`, a user without a profile to `/Profile_create` |
| `Guards.ProfileCreateGateSpec` | server.js:110-124 | `requireAuth` then `requireNoProfile` passes iff the session holds an existing user without a profile; no or a stale id goes to `/sign_in`, a user with a profile to `/dashboard` |
| `Guards.GatesDisjoint` | server.js:45-57 | for one session and store, the dashboard and the profile-creation routes are never both open |
| `Guards.StaleSessionBounces` | server.js:40-49 | a session whose user id names no stored user is sent from the guest-only pages to `/dashboard`, and from `/dashboard` back to `/sign_in` |
| `Config.MissingKeys` | server.js:165-168 | the reported settings are exactly those in the list that are absent or empty, and they form an in-order sublist of it |
| `Config.CollectMissing` | server.js:165-168 | the `forEach` loop collects `MissingKeys` of the four fixed names; it collects nothing iff all four are set to non-empty values |
| `Config.Join` | server.js:173 | `missingVars.join(", ")`: the empty list gives the empty string and one name gives that name. Otherwise the result starts with the first name, and its length is the names' total length plus one separator between each two names |
| `Config.JoinSnoc` | server.js:173 | joining one more name appends the separator and then that name. With the one-name case this fixes the whole joined text: the names in list order, separated by the separator |
| `Config.MisconfiguredMessage` | server.js:173 | the error text is "Server misconfigured. Missing: " when nothing is missing, and that lead-in followed by the name when one name is missing. With two or more names it is the text for all but the last followed by ", " and the last name, so the names appear in order, separated by ", " |
| `Models.LeanUser` | server.js:223 | the plain user document (also at server.js:115) has exactly `_id` and the schema's six fields, each holding the stored user's value, the PIN included |
| `Server.WithoutPin` | server.js:231 | `delete user.pin`: the `pin` key is gone, every other key stays with its value |
| `Server.CredentialsMatch` | server.js:97-99 | sign-in's test passes exactly when some user has the email and the PIN, and no earlier user has the email |
| `Server.PinMail` | server.js:188-200 | the message is addressed to the user's email, carries the user's PIN and the sender name "UniVerse Team", and uses the four configured service values |
| `Server.DashboardView` | server.js:223-236 | the rendered user has every field of the stored user except `pin`, with the same values; the profile is the stored profile at the position `findOne({ email })` finds for the user's email, and it is null exactly when no profile has that email |
| `Server.App.PostSignUp` | server.js:72-88 | when signed in: redirect to `/dashboard`, users unchanged. Otherwise it always redirects to `/sign_in`. A taken email leaves the users unchanged; a new email appends exactly one user with the submitted fields and `Profile_created_status` false. Unique emails stay unique. Every flagged user still has a profile, and every profile still belongs to a flagged user. The profile store and the session are not touched |
| `Server.App.PostSignIn` | server.js:95-107 | "Invalid email or PIN" is shown iff the request is from a guest and the email is unknown or the PIN differs; the session is then unchanged. On a match the session is bound to that user, with a redirect to `/dashboard` iff the profile flag is set and to `/Profile_create` otherwise. The guards of that target then pass. Only the session is written |
| `Server.App.GetProfileCreate` | server.js:110-118 | the chain's redirect when it fails, otherwise the form given the whole plain user document |
| `Server.App.CreateProfile` | server.js:124-140 | with no stored session user: redirect to `/sign_in`, nothing written. Otherwise the profile with the user's email and the given name, gender and bio is upserted, only that user's flag is set, the redirect is to `/dashboard`, and the dashboard's guards then pass. Four invariants are preserved: user emails are unique, profile emails are unique, every flagged user has a profile, and every profile belongs to a flagged user |
| `Server.App.PostCreateProfile` | server.js:120-141 | when the guard chain fails: its redirect and nothing written. Otherwise it has the handler's effect and keeps the same invariants. On a store with unique user emails whose profiles all belong to flagged users, the upsert past the guards always appends: a profile is created exactly once, when the flag goes from false to true |
| `Server.App.GetDashboard` | server.js:218-238 | the chain's redirect when it fails, otherwise `DashboardView` of the session user. The page never holds a `pin` field. On a store where every flagged user has a profile, the profile is never null. Nothing is written |
| `Server.App.GetLogout` | server.js:147-152 | always redirects to `/sign_in` and leaves no user id in the session, so `requireAuth` then redirects to `/sign_in` |
| `Server.App.PostRecoverPin` | server.js:159-216 | a signed-in session is redirected to `/dashboard`. Missing settings are reported in their fixed order, whatever the store and the email. Next comes "No account found" for an unknown email. Otherwise the PIN of the first user with that email is handed to the mail service, addressed to that email. The page shows success or the send failure according to the service. Nothing is mailed on any other path, and no store or session is written |
| `Server.Journey` | server.js:72-152 | a guest with an unregistered email who signs up, signs in with the same PIN and creates a profile sees a dashboard without a PIN that shows exactly that profile; after logout `requireAuth` redirects to `/sign_in` |

## Left out

- The MongoDB connection and query machinery are left out. The collections are in-memory sequences, so database errors, including those the recovery handler's `catch` would receive, are not modelled.
- The mail service call is foreign. Only the message it is given and whether it succeeds are modelled.
- Server setup is plumbing and is left out: Express, static files, body parsing, `app.listen` and `res.clearCookie`.
- The session cookie's 10-second lifetime is wall-clock expiry. Every method accepts any session value, so an expired session is the same as a session without a user id.
- EJS rendering, the `GET` pages that only render a form (`/`, `/sign_in`, `/recover_pin`) and `/terms_and_conditions` are views. A rendered page is an `Outcome` value. The guard those pages share, `requireGuest`, is modelled.
- Logging (`console.log`, `console.error`) is left out.
- Mongoose's `__v` version key is left out of the plain user document (`Models.LeanUser`). The real document also carries it, and the dashboard and profile form receive it. The dashboard's plain profile (server.js:224, 235) also carries `_id` and `__v`, which the `Profile` record omits. Neither holds account data.
- Absent form fields are not modelled. Every submitted field is a string, so the `String()` around both PINs is the identity. Mongoose's handling of undefined values is not modelled either.
- JSON bodies are not modelled. `express.json()` (server.js:15) also accepts a number or a query-operator object such as `{"$ne": null}` for `email`, and `findOne` (server.js:75, 97, 178) then applies it as a filter rather than as an address. In that case the server can find a user whose email is not the submitted value. So `Server.App.PostRecoverPin`'s promise that the mail goes to the submitted email, and the sign-in and sign-up lookups, hold only for string fields.
- `Server.App.CreateProfile` writes the profile and the user flag together. In the server these are two separate writes, and a crash between them is not modelled.
- The dashboard's `if (!user)` check (server.js:226-229) runs after `user.email` has already been read, and it is dead under `requireProfile`. The model computes the page only after the dashboard guards pass, which guarantees the user exists.
- Concurrent requests are not modelled. Each method is one request run to completion.
- The one-time codes, email verification, gallery uploads, likes and image deletion are not implemented in server.js: the one-time-code fields in models/User.js are commented out, and no route handles likes or deletes. They are not modelled.
- public/dashboard.js and public/Profile_create_script.js are browser code (DOM, `fetch`, timers, a floating-point progress bar) and are not part of this model.

/** The user and profile collections as in-memory sequences, with the queries
    and the single write shape (an upsert) that the handlers use. */
module Store {
  import opened Wrappers
  import opened Models

  /** `User.findById(id)`; an absent id (`findById(undefined)`) finds nothing. */
  function FindById(users: seq<User>, id: Option<UserId>): (r: Option<User>)
    ensures r.Some? <==> id.Some? && id.value < |users|
    ensures r.Some? ==> r.value == users[id.value]
  {
    if id.Some? && id.value < |users| then Some(users[id.value]) else None
  }

  /** `Model.findOne({ email })` on a collection whose documents carry their email
      at `emailOf`: the position of the first document, in insertion order, with
      that email. */
  function FirstWithEmail<T>(docs: seq<T>, emailOf: T -> string, email: string): (r: Option<nat>)
    ensures r.Some? ==> r.value < |docs| && emailOf(docs[r.value]) == email
    ensures r.Some? ==> forall j :: 0 <= j < r.value ==> emailOf(docs[j]) != email
    ensures r.None? <==> forall j :: 0 <= j < |docs| ==> emailOf(docs[j]) != email
  {
    if |docs| == 0 then None
    else if emailOf(docs[0]) == email then Some(0)
    else match FirstWithEmail(docs[1..], emailOf, email)
      case None => None
      case Some(i) => Some(i + 1)
  }

  /** `User.findOne({ email })`. */
  function FindUserByEmail(users: seq<User>, email: string): (r: Option<UserId>)
  {
    FirstWithEmail(users, (u: User) => u.email, email)
  }

  /** `Profile.findOne({ email })`, as the index of the profile found. */
  function FindProfileByEmail(profiles: seq<Profile>, email: string): (r: Option<nat>)
  {
    FirstWithEmail(profiles, (p: Profile) => p.email, email)
  }

  /** The profile document `Profile.findOne({ email })` returns, if any. */
  function ProfileOf(profiles: seq<Profile>, email: string): (r: Option<Profile>)
    ensures r.None? <==> forall j :: 0 <= j < |profiles| ==> profiles[j].email != email
    ensures r.Some? ==>
      FindProfileByEmail(profiles, email).Some? &&
      r.value == profiles[FindProfileByEmail(profiles, email).value] && r.value.email == email
  {
    match FindProfileByEmail(profiles, email)
    case None => None
    case Some(i) => Some(profiles[i])
  }

  /** No two users share an email. The schema does not enforce it; only sign-up's check keeps it. */
  ghost predicate EmailsUnique(users: seq<User>)
  {
    forall i, j :: 0 <= i < j < |users| ==> users[i].email != users[j].email
  }

  /** No two profiles share an email. */
  ghost predicate ProfileEmailsUnique(profiles: seq<Profile>)
  {
    forall i, j :: 0 <= i < j < |profiles| ==> profiles[i].email != profiles[j].email
  }

  /** Every user whose `Profile_created_status` is set has a profile under their email. */
  ghost predicate Consistent(users: seq<User>, profiles: seq<Profile>)
  {
    forall i :: 0 <= i < |users| && users[i].profileCreated ==>
      FindProfileByEmail(profiles, users[i].email).Some?
  }

  /** Every profile belongs to a user who has created one: some user with
      `Profile_created_status` set has the profile's email. Only profile creation
      writes a profile, and it sets that flag, so no profile precedes its flag. */
  ghost predicate ProfilesOwned(users: seq<User>, profiles: seq<Profile>)
  {
    forall k :: 0 <= k < |profiles| ==>
      exists i :: 0 <= i < |users| && users[i].email == profiles[k].email && users[i].profileCreated
  }

  /** With unique user emails and owned profiles, a user who has not created a
      profile has none under their email, so creating one appends a new profile. */
  lemma UnflaggedHasNoProfile(users: seq<User>, profiles: seq<Profile>, id: UserId, p: Profile)
    requires EmailsUnique(users) && ProfilesOwned(users, profiles)
    requires id < |users| && !users[id].profileCreated && p.email == users[id].email
    ensures FindProfileByEmail(profiles, users[id].email).None?
    ensures Upsert(profiles, p) == profiles + [p]
  {
    forall k | 0 <= k < |profiles|
      ensures profiles[k].email != users[id].email
    {
      var i :| 0 <= i < |users| && users[i].email == profiles[k].email && users[i].profileCreated;
      if i < id {
        assert users[i].email != users[id].email;
      } else {
        assert i > id && users[id].email != users[i].email;
      }
    }
  }

  /** `Profile.findOneAndUpdate({ email: p.email }, p, { upsert: true })`: the first
      profile with `p`'s email is overwritten with `p` (all four fields are set);
      when there is none, `p` is inserted. */
  function Upsert(profiles: seq<Profile>, p: Profile): (r: seq<Profile>)
    // afterwards the email query finds exactly the written document
    ensures ProfileOf(r, p.email) == Some(p)
    // an existing profile is updated in place, never duplicated
    ensures FindProfileByEmail(profiles, p.email).Some? ==>
      |r| == |profiles| && r[FindProfileByEmail(profiles, p.email).value] == p
    ensures FindProfileByEmail(profiles, p.email).None? ==> |r| == |profiles| + 1 && r[|profiles|] == p
    // every other profile keeps its place and its content
    ensures forall j :: 0 <= j < |profiles| && Some(j) != FindProfileByEmail(profiles, p.email) ==>
      r[j] == profiles[j]
    // no email loses its profile, and uniqueness by email is kept
    ensures forall e :: FindProfileByEmail(profiles, e).Some? ==> FindProfileByEmail(r, e).Some?
    ensures ProfileEmailsUnique(profiles) ==> ProfileEmailsUnique(r)
  {
    match FindProfileByEmail(profiles, p.email)
    case Some(i) =>
      var r := profiles[i := p];
      assert FindProfileByEmail(r, p.email) == Some(i) by {
        assert r[i].email == p.email;
        assert forall j :: 0 <= j < i ==> r[j] == profiles[j];
      }
      assert forall e :: FindProfileByEmail(profiles, e).Some? ==> FindProfileByEmail(r, e).Some? by {
        forall e | FindProfileByEmail(profiles, e).Some?
          ensures FindProfileByEmail(r, e).Some?
        {
          var k := FindProfileByEmail(profiles, e).value;
          assert r[k].email == e;
        }
      }
      r
    case None =>
      var r := profiles + [p];
      assert forall e :: FindProfileByEmail(profiles, e).Some? ==> FindProfileByEmail(r, e).Some? by {
        forall e | FindProfileByEmail(profiles, e).Some?
          ensures FindProfileByEmail(r, e).Some?
        {
          var k := FindProfileByEmail(profiles, e).value;
          assert r[k].email == e;
        }
      }
      assert r[|profiles|].email == p.email;
      r
  }

  /** Profile creation keeps every profile owned: the written profile belongs to the
      user whose flag it sets, and flags are only ever set, never cleared. */
  lemma UpsertKeepsOwned(users: seq<User>, profiles: seq<Profile>, id: UserId, p: Profile)
    requires ProfilesOwned(users, profiles)
    requires id < |users| && p.email == users[id].email
    ensures ProfilesOwned(users[id := users[id].(profileCreated := true)], Upsert(profiles, p))
  {
    var users' := users[id := users[id].(profileCreated := true)];
    var r := Upsert(profiles, p);
    forall k | 0 <= k < |r|
      ensures exists i :: 0 <= i < |users'| && users'[i].email == r[k].email && users'[i].profileCreated
    {
      if r[k] == p {
        assert users'[id].email == r[k].email && users'[id].profileCreated;
      } else {
        assert k < |profiles| && r[k] == profiles[k];
        var i :| 0 <= i < |users| && users[i].email == profiles[k].email && users[i].profileCreated;
        assert users'[i].email == r[k].email && users'[i].profileCreated;
      }
    }
  }
}

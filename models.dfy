/** The two document shapes of the store: models/User.js and models/Profile.js. */
module Models {

  /** A user's `_id`. No flow deletes a user, so the model identifies a user by
      the position at which sign-up appended its document. */
  type UserId = nat

  /** A `User` document. `profileCreated` is `Profile_created_status`, which
      defaults to false. The one-time-code fields are commented out in the
      schema and are not part of it. */
  datatype User = User(
    name: string,
    email: string,
    phone: string,
    pin: string,
    dob: string,
    profileCreated: bool)

  /** A `Profile` document, linked to its user by `email` only. */
  datatype Profile = Profile(name: string, email: string, bio: string, gender: string)

  /** A value inside a plain (`lean()`) document. */
  datatype Field = Text(text: string) | Flag(flag: bool) | Ref(id: UserId)

  /** A plain document: field name to value. */
  type Doc = map<string, Field>

  /** The plain object `User.findById(id).lean()` yields: the schema's fields and `_id`,
      keyed by the schema's field names. */
  function LeanUser(id: UserId, u: User): (d: Doc)
    ensures d.Keys == {"_id", "name", "email", "phone", "pin", "dob", "Profile_created_status"}
    ensures d["_id"] == Ref(id) && d["name"] == Text(u.name) && d["email"] == Text(u.email)
    ensures d["phone"] == Text(u.phone) && d["pin"] == Text(u.pin) && d["dob"] == Text(u.dob)
    ensures d["Profile_created_status"] == Flag(u.profileCreated)
  {
    map[
      "_id" := Ref(id),
      "name" := Text(u.name),
      "email" := Text(u.email),
      "phone" := Text(u.phone),
      "pin" := Text(u.pin),
      "dob" := Text(u.dob),
      "Profile_created_status" := Flag(u.profileCreated)]
  }
}

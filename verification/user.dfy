/**
 * The profile record stored under `users/{uid}` (model/User.kt): a data
 * class with four properties, a no-argument constructor for the database
 * deserialiser and `toMap()`.
 */
module UserModel {

  import opened Wrappers

  /** Kotlin's 64-bit `Long`. */
  newtype Long = x: int | -0x8000_0000_0000_0000 <= x < 0x8000_0000_0000_0000

  datatype User = User(uid: string, name: string, email: string, createdAt: Long)

  /** The values `toMap()` stores: strings for the three text fields, a `Long` for the timestamp. */
  datatype Value = Text(s: string) | Number(n: Long)

  /** The no-argument constructor, `User()`. */
  function EmptyUser(): (u: User)
    ensures u.uid == [] && u.name == [] && u.email == [] && u.createdAt == 0
    ensures ToMap(u) == map["uid" := Text([]), "name" := Text([]), "email" := Text([]), "createdAt" := Number(0)]
  {
    User("", "", "", 0)
  }

  /** `toMap()`: the record as the four-entry map sent to the database. */
  function ToMap(u: User): (m: map<string, Value>)
    ensures m.Keys == {"uid", "name", "email", "createdAt"}
    ensures m["uid"] == Text(u.uid) && m["name"] == Text(u.name) && m["email"] == Text(u.email)
    ensures m["createdAt"] == Number(u.createdAt)
  {
    map["uid" := Text(u.uid), "name" := Text(u.name), "email" := Text(u.email),
        "createdAt" := Number(u.createdAt)]
  }

  /** Reads a record back from a map with exactly the keys and value kinds `ToMap` produces. */
  function FromMap(m: map<string, Value>): Option<User>
  {
    if && m.Keys == {"uid", "name", "email", "createdAt"}
       && m["uid"].Text? && m["name"].Text? && m["email"].Text? && m["createdAt"].Number?
    then Some(User(m["uid"].s, m["name"].s, m["email"].s, m["createdAt"].n))
    else None
  }

  lemma ToMapRoundTrip(u: User)
    ensures FromMap(ToMap(u)) == Some(u)
  {
  }

  /** `FromMap` accepts exactly the images of `ToMap`. */
  lemma FromMapOnlyImages(m: map<string, Value>)
    ensures FromMap(m).Some? ==> ToMap(FromMap(m).value) == m
  {
    if FromMap(m).Some? {
      var u := FromMap(m).value;
      assert forall k :: k in m ==> m[k] == ToMap(u)[k];
    }
  }

  /** Two records with the same map are the same record. */
  lemma ToMapInjective(u: User, v: User)
    ensures ToMap(u) == ToMap(v) ==> u == v
  {
    if ToMap(u) == ToMap(v) {
      ToMapRoundTrip(u);
      ToMapRoundTrip(v);
    }
  }
}

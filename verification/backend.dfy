/**
 * The two external collaborators, Firebase Authentication and the
 * Firebase Realtime Database, seen only through the calls the screens
 * issue and the failures they report back.
 */
module Backend {

  import opened Wrappers
  import opened Text
  import opened UserModel

  /**
   * The exception a failed authentication call delivers. Each classified
   * variant stands for one Firebase exception class, with its `errorCode`;
   * `message` is `exception.message`, which may be null.
   * `WeakPassword` is a subclass of the invalid-credentials exception in
   * the Firebase SDK, so a test for the latter also catches it.
   */
  datatype AuthFailure =
    | InvalidUser(code: string, message: Option<string>)
    | InvalidCredentials(code: string, message: Option<string>)
    | WeakPassword(code: string, message: Option<string>)
    | UserCollision(code: string, message: Option<string>)
    | OtherFailure(message: Option<string>)

  /** `exception is FirebaseAuthInvalidCredentialsException`. */
  predicate IsInvalidCredentials(f: AuthFailure)
  {
    f.InvalidCredentials? || f.WeakPassword?
  }

  /**
   * `DatabaseError.code`: only `PERMISSION_DENIED` (the SDK's -3) is told
   * apart by the app; `OtherCode` carries any other code.
   */
  datatype DbCode = PermissionDenied | OtherCode(n: int)

  /** The error a cancelled database read delivers; its message is never null. */
  datatype DatabaseError = DatabaseError(code: DbCode, message: string)

  /** `message?.contains(word, ignoreCase = true) == true`: a null message mentions nothing. */
  predicate Mentions(message: Option<string>, word: string)
  {
    message.Some? && ContainsIgnoreCase(message.value, word)
  }

  /** A message mentioning "PERMISSION_DENIED" also mentions "permission". */
  lemma MentionsOfPermissionDenied(message: Option<string>)
    ensures Mentions(message, "PERMISSION_DENIED") ==> Mentions(message, "permission")
  {
    if message.Some? {
      PermissionDeniedMentionsPermission(message.value);
    }
  }

  /** The database location of a user's profile, `users/{uid}`. */
  function ProfilePath(uid: string): seq<string>
  {
    ["users", uid]
  }

  /** Distinct users have distinct profile locations. */
  lemma ProfilePathInjective(a: string, b: string)
    ensures ProfilePath(a) == ProfilePath(b) <==> a == b
  {
    if ProfilePath(a) == ProfilePath(b) {
      assert ProfilePath(a)[1] == ProfilePath(b)[1];
    }
  }

  /**
   * The profile read issued for a signed-in uid targets the location a
   * profile write for `record` went to exactly when that uid is the
   * record's own.
   */
  lemma ReadMatchesWrite(readUid: string, record: User)
    ensures ReadProfile(ProfilePath(readUid)).path == WriteProfile(ProfilePath(record.uid), record).path
        <==> readUid == record.uid
  {
    ProfilePathInjective(readUid, record.uid);
  }

  /** A call a screen issues to a backend, in the order issued. */
  datatype Request =
    | CreateAccount(email: string, password: string)
    | WriteProfile(path: seq<string>, record: User)
    | SignIn(email: string, password: string)
    | SendPasswordReset(email: string)
    | ReadProfile(path: seq<string>)
    | SignOut
}

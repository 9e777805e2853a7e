/**
 * The session store: who is signed in. The in-memory identity is mirrored in
 * durable storage under the single key `mockUser`; the mirror is modelled as an
 * optional identity rather than as serialised text.
 */
module AuthStore {
  import opened Seqs

  /** `{ id, email, name? }`. */
  datatype User = User(id: string, email: string, name: Option<string>)

  /** The fixed id every mock identity receives. */
  const MockUserId: string := "1"

  class AuthProvider {
    /** The signed-in identity, `null` when signed out. */
    var user: Option<User>
    /** True until the mount-time restore has run. */
    var isLoading: bool
    /** The value stored under the `mockUser` key, if any. */
    var mirror: Option<User>

    /**
     * The memory and the mirror agree, except that before the restore has run
     * the in-memory identity may still be absent.
     */
    ghost predicate Valid()
      reads this
    {
      user == mirror || (isLoading && user.None?)
    }

    /** Mounting the provider over whatever the storage already holds. */
    constructor (stored: Option<User>)
      ensures Valid()
      ensures user == None && isLoading && mirror == stored
    {
      user := None;
      isLoading := true;
      mirror := stored;
    }

    /** The mount effect: adopt the mirrored identity if there is one; loading ends either way. */
    method Restore()
      requires Valid()
      modifies this
      ensures Valid()
      ensures !isLoading && mirror == old(mirror)
      ensures user == old(mirror)
    {
      if mirror.Some? {
        user := mirror;
      }
      isLoading := false;
    }

    /** Any password is accepted; the identity is built from the email alone and mirrored. */
    method SignIn(email: string, password: string)
      requires Valid()
      modifies this
      ensures Valid()
      ensures user == Some(User(MockUserId, email, None))
      ensures mirror == user && isLoading == old(isLoading)
    {
      var mockUser := User(MockUserId, email, None);
      mirror := Some(mockUser);
      user := Some(mockUser);
    }

    /** As `SignIn`, and the identity also carries the display name. */
    method SignUp(email: string, password: string, name: string)
      requires Valid()
      modifies this
      ensures Valid()
      ensures user == Some(User(MockUserId, email, Some(name)))
      ensures mirror == user && isLoading == old(isLoading)
    {
      var mockUser := User(MockUserId, email, Some(name));
      mirror := Some(mockUser);
      user := Some(mockUser);
    }

    /** Removes the mirror and forgets the identity; harmless when nobody is signed in. */
    method SignOut()
      requires Valid()
      modifies this
      ensures Valid()
      ensures user == None && mirror == None && isLoading == old(isLoading)
    {
      mirror := None;
      user := None;
    }
  }

  /**
   * A later session, mounted over the storage a signed-out session left behind,
   * restores nobody.
   */
  method RestoreAfterSignOut(session: AuthProvider) returns (next: AuthProvider)
    requires session.Valid()
    modifies session
    ensures fresh(next) && next.Valid()
    ensures next.user == None && !next.isLoading
  {
    session.SignOut();
    next := new AuthProvider(session.mirror);
    next.Restore();
  }

  /** Signing out twice leaves the same state as signing out once. */
  method SignOutIdempotent(session: AuthProvider)
    requires session.Valid()
    modifies session
    ensures session.Valid()
    ensures session.user == None && session.mirror == None
    ensures session.isLoading == old(session.isLoading)
  {
    session.SignOut();
    var once := (session.user, session.mirror);
    session.SignOut();
    assert (session.user, session.mirror) == once;
  }
}

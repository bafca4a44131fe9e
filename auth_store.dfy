/**
 * The client-side sign-in state (src/stores/authStore.ts): the current user,
 * if any, and a flag saying whether someone is signed in. Both operations
 * replace the two fields together, so the flag always agrees with the user.
 */
module AuthStore {
  import opened Common

  /** The store's fields as one value. */
  datatype Session = Session(user: Option<AuthUser>, isLoggedIn: bool)

  /** The flag says exactly whether a user is present. */
  predicate Consistent(s: Session) {
    s.isLoggedIn <==> s.user.Some?
  }

  /** The state after `setAuth(user)`: `{ user, isLoggedIn: !!user }`. */
  function SignedIn(user: Option<AuthUser>): (s: Session)
    ensures Consistent(s) && s.user == user
  {
    Session(user, user.Some?)
  }

  /** The state after `reset()`, which is also the initial state. */
  const SignedOut: Session := Session(None, false)

  /** Setting no user is the same as resetting. */
  lemma SetAuthNoneIsReset()
    ensures SignedIn(None) == SignedOut
  {
  }

  /** The state `setAuth` leaves determines the user it was given: different users leave different states. */
  lemma SetAuthDeterminesSession(a: Option<AuthUser>, b: Option<AuthUser>)
    ensures SignedIn(a) == SignedIn(b) <==> a == b
  {
  }

  class AuthState {
    var user: Option<AuthUser>
    var isLoggedIn: bool

    function Snapshot(): Session
      reads this
    {
      Session(user, isLoggedIn)
    }

    ghost predicate Valid()
      reads this
    {
      Consistent(Snapshot())
    }

    constructor ()
      ensures Valid() && Snapshot() == SignedOut
    {
      user := None;
      isLoggedIn := false;
    }

    method SetAuth(u: Option<AuthUser>)
      modifies this
      ensures Valid() && Snapshot() == SignedIn(u)
    {
      user := u;
      isLoggedIn := u.Some?;
    }

    /** Idempotent: the new state does not depend on the old one. */
    method Reset()
      modifies this
      ensures Valid() && Snapshot() == SignedOut
    {
      user := None;
      isLoggedIn := false;
    }
  }
}

/** The in-memory session of phishguard/src/session.tsx: `{token, role}` held by the
    `SessionProvider`, replaced by `signIn` and `signOut`, and read through `useSession`. */
module Session {
  import opened Wrappers
  import Api

  datatype Session = Session(token: Option<string>, role: Option<Api.Role>) {
    /** A token exactly when a role. */
    predicate Consistent() {
      token.None? <==> role.None?
    }
  }

  /** `{ token: null, role: null }`. */
  const SignedOut: Session := Session(None, None)

  const OutsideProviderMessage: string := "useSession must be used inside SessionProvider"

  class SessionProvider {
    var session: Session
    /** The arguments handed to the API layer's `setAuthToken`, in order. */
    ghost var forwarded: seq<Option<string>>

    /** A fresh provider is always signed out: nothing is read from storage. */
    constructor ()
      ensures session == SignedOut && session.Consistent()
      ensures forwarded == []
    {
      session := SignedOut;
      forwarded := [];
    }

    /** `signIn(token, role)`: the token goes to the API layer and the session becomes
        exactly `{token, role}`. */
    method SignIn(token: string, role: Api.Role)
      modifies this
      ensures session == Session(Some(token), Some(role)) && session.Consistent()
      ensures forwarded == old(forwarded) + [Some(token)]
    {
      forwarded := forwarded + [Some(token)];
      session := Session(Some(token), Some(role));
    }

    /** `signOut()`: null goes to the API layer and the session is the initial one again,
        whatever it was, so signing out twice leaves the same state. */
    method SignOut()
      modifies this
      ensures session == SignedOut && session.Consistent()
      ensures forwarded == old(forwarded) + [None]
    {
      forwarded := forwarded + [None];
      session := SignedOut;
    }
  }

  /** `useSession()`: the provider's context, or the error thrown outside a provider. */
  function UseSession<C>(context: Option<C>): (r: Result<C, string>)
    ensures r.Success? <==> context.Some?
    ensures r.Success? ==> r.value == context.value
    ensures r.Failure? ==> r.error == OutsideProviderMessage
  {
    match context
    case Some(c) => Success(c)
    case None => Failure(OutsideProviderMessage)
  }
}

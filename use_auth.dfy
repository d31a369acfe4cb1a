/**
 * The authentication hook of src/hooks/useAuth.ts: the initial check run by
 * its effect, and `login` and `logout`. The token helpers of the auth
 * service (`refreshSafe`, `setTokens`, `clearTokens`, `loginApi`,
 * `logoutApi`) are not part of this model; the hook records which of them it
 * calls, in order, and the outcome of each call is an input.
 */
module UseAuth {
  import opened Wrappers
  import Storage

  const AccessTokenKey := "accessToken"
  const RefreshTokenKey := "refreshToken"

  /** A token pair returned by the login call. */
  datatype Tokens = Tokens(accessToken: string, refreshToken: string)

  /** A call the hook makes into the auth service. */
  datatype AuthCall =
    | RefreshSafe
    | SetTokens(tokens: Tokens)
    | ClearTokens
    | LoginApi(email: string, password: string)
    | LogoutApi(refreshToken: string)

  /** The hook's state: its two flags, whether a refresh is in flight, and the auth-service calls made so far. */
  class Hook {
    var authChecked: bool
    var isAuthenticated: bool
    var refreshPending: bool
    var calls: seq<AuthCall>
    /** Whether the effect has run; it runs once, after the first render. */
    var started: bool

    /** Lines 13-14: both flags start false; nothing has been called. */
    constructor ()
      ensures !authChecked && !isAuthenticated && !refreshPending && calls == [] && !started
    {
      started := false;
      authChecked := false;
      isAuthenticated := false;
      refreshPending := false;
      calls := [];
    }

    /**
     * Lines 16-41: the effect. A session access token alone means signed in
     * and checked, with no refresh, whatever the local refresh token;
     * otherwise a local refresh token starts `refreshSafe`; with neither the
     * hook is checked and signed out.
     */
    method Effect(session: Storage.Store, local: Storage.Store)
      requires !started && !refreshPending
      modifies this
      ensures started
      ensures Storage.Present(Storage.GetItem(session, AccessTokenKey)) ==>
        authChecked && isAuthenticated && !refreshPending && calls == old(calls)
      ensures !Storage.Present(Storage.GetItem(session, AccessTokenKey)) && Storage.Present(Storage.GetItem(local, RefreshTokenKey)) ==>
        refreshPending && calls == old(calls) + [RefreshSafe]
        && authChecked == old(authChecked) && isAuthenticated == old(isAuthenticated)
      ensures !Storage.Present(Storage.GetItem(session, AccessTokenKey)) && !Storage.Present(Storage.GetItem(local, RefreshTokenKey)) ==>
        authChecked && !isAuthenticated && !refreshPending && calls == old(calls)
    {
      started := true;
      var accessToken := Storage.GetItem(session, AccessTokenKey);
      var refreshToken := Storage.GetItem(local, RefreshTokenKey);
      if Storage.Present(accessToken) {
        isAuthenticated := true;
        authChecked := true;
      } else if Storage.Present(refreshToken) {
        calls := calls + [RefreshSafe];
        refreshPending := true;
      } else {
        authChecked := true;
        isAuthenticated := false;
      }
    }

    /**
     * Lines 20-30: `refreshSafe` settles. Success means signed in; failure
     * clears the tokens and means signed out; either way the hook is checked.
     */
    method RefreshSettled(succeeded: bool)
      requires refreshPending
      modifies this
      ensures authChecked && !refreshPending && isAuthenticated == succeeded && started == old(started)
      ensures succeeded ==> calls == old(calls)
      ensures !succeeded ==> calls == old(calls) + [ClearTokens]
    {
      if succeeded {
        isAuthenticated := true;
      } else {
        calls := calls + [ClearTokens];
        isAuthenticated := false;
      }
      authChecked := true;
      refreshPending := false;
    }

    /**
     * Lines 43-47: `login`. The login call is made; only when it returns are
     * the tokens stored and the hook signed in, and `login` resolves with no
     * value. The login call's error propagates and nothing else happens.
     */
    method Login(email: string, password: string, outcome: Result<Tokens>) returns (r: Result<()>)
      modifies this
      ensures outcome.Ok? ==> r == Ok(())
      ensures outcome.Err? ==> r == Err(outcome.message)
      ensures authChecked == old(authChecked) && refreshPending == old(refreshPending) && started == old(started)
      ensures outcome.Ok? ==> isAuthenticated && calls == old(calls) + [LoginApi(email, password), SetTokens(outcome.value)]
      ensures outcome.Err? ==> isAuthenticated == old(isAuthenticated) && calls == old(calls) + [LoginApi(email, password)]
    {
      calls := calls + [LoginApi(email, password)];
      if outcome.Err? {
        return Err(outcome.message);
      }
      calls := calls + [SetTokens(outcome.value)];
      isAuthenticated := true;
      r := Ok(());
    }

    /**
     * Lines 49-54: `logout`. The server is told only when a refresh token is
     * stored; the tokens are cleared and the hook signed out only after that
     * call returns, and its error propagates leaving both untouched.
     */
    method Logout(storedRefreshToken: Option<string>, serverOutcome: Result<()>) returns (r: Result<()>)
      modifies this
      ensures authChecked == old(authChecked) && refreshPending == old(refreshPending) && started == old(started)
      ensures !Storage.Present(storedRefreshToken) ==>
        r == Ok(()) && !isAuthenticated && calls == old(calls) + [ClearTokens]
      ensures Storage.Present(storedRefreshToken) && serverOutcome.Ok? ==>
        r == Ok(()) && !isAuthenticated && calls == old(calls) + [LogoutApi(storedRefreshToken.value), ClearTokens]
      ensures Storage.Present(storedRefreshToken) && serverOutcome.Err? ==>
        r == serverOutcome && isAuthenticated == old(isAuthenticated) && calls == old(calls) + [LogoutApi(storedRefreshToken.value)]
    {
      if Storage.Present(storedRefreshToken) {
        calls := calls + [LogoutApi(storedRefreshToken.value)];
        if serverOutcome.Err? {
          return serverOutcome;
        }
      }
      calls := calls + [ClearTokens];
      isAuthenticated := false;
      r := Ok(());
    }
  }

  /** Every path of the initial check ends checked once any refresh has settled. */
  method InitialCheckCompletes(session: Storage.Store, local: Storage.Store, refreshSucceeds: bool) returns (checked: bool, signedIn: bool)
    ensures checked
    ensures signedIn <==>
      Storage.Present(Storage.GetItem(session, AccessTokenKey))
      || (Storage.Present(Storage.GetItem(local, RefreshTokenKey)) && refreshSucceeds)
  {
    var hook := new Hook();
    hook.Effect(session, local);
    if hook.refreshPending {
      hook.RefreshSettled(refreshSucceeds);
    }
    checked, signedIn := hook.authChecked, hook.isAuthenticated;
  }
}

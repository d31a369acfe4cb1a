/**
 * The route guard of src/App.tsx. `RequireAuth` checks the tokens in local
 * storage once after mounting: both tokens mean signed in; a refresh token
 * alone is exchanged for a new pair; no refresh token means signed out. The
 * exchange is asynchronous, so the check is split into the part that runs
 * at once (`CheckAuth`) and the part that runs when the exchange settles
 * (`RefreshSettled`); unmounting in between stops the flag updates but not
 * the storage writes.
 */
module App {
  import opened Wrappers
  import Storage

  const AccessTokenKey := "accessToken"
  const RefreshTokenKey := "refreshToken"

  /** How the refresh call settled: a new token pair, or a thrown error. */
  datatype RefreshOutcome = Refreshed(accessToken: string, refreshToken: string) | RefreshFailed

  /** What the guard renders. */
  datatype View = Nothing | RedirectToLogin | Children

  /** Both tokens are stored and non-empty. */
  predicate BothTokens(store: Storage.Store)
  {
    Storage.Present(Storage.GetItem(store, AccessTokenKey)) && Storage.Present(Storage.GetItem(store, RefreshTokenKey))
  }

  /** The refresh token is stored and non-empty. */
  predicate HasRefreshToken(store: Storage.Store)
  {
    Storage.Present(Storage.GetItem(store, RefreshTokenKey))
  }

  /** Lines 46-48: nothing until checked, the login redirect when signed out, the protected page otherwise. */
  function Decide(authChecked: bool, isAuthenticated: bool): (v: View)
    ensures v == Nothing <==> !authChecked
    ensures v == RedirectToLogin <==> authChecked && !isAuthenticated
    ensures v == Children <==> authChecked && isAuthenticated
  {
    if !authChecked then Nothing
    else if !isAuthenticated then RedirectToLogin
    else Children
  }

  /** The guard's state: the local storage it reads and writes, its two flags and the effect's `isMounted` local. */
  class RequireAuth {
    var storage: Storage.Store
    var authChecked: bool
    var isAuthenticated: bool
    var isMounted: bool
    /** The refresh token a refresh call is in flight with, if any. */
    var refreshing: Option<string>
    /** Whether the effect has run. */
    var started: bool

    /** A refresh is only in flight after the effect ran with a refresh token and before the check finished. */
    ghost predicate Valid()
      reads this
    {
      && (refreshing.Some? ==> started && refreshing.value != [])
      && (!started ==> !authChecked && !isAuthenticated && !isMounted && refreshing.None?)
    }

    /** Lines 8-9: both flags start false; the store is whatever the browser holds. */
    constructor (store: Storage.Store)
      ensures Valid() && storage == store && !started
      ensures !authChecked && !isAuthenticated && !isMounted && refreshing.None?
    {
      storage := store;
      authChecked := false;
      isAuthenticated := false;
      isMounted := false;
      refreshing := None;
      started := false;
    }

    /**
     * Lines 12-22 and 35-42: the effect's synchronous part. With both tokens
     * the guard is signed in and checked; with a refresh token alone the
     * refresh call starts with it; otherwise the guard is signed out and
     * checked. The storage is not touched.
     */
    method CheckAuth()
      requires Valid() && !started
      modifies this
      ensures Valid() && started && isMounted && storage == old(storage)
      ensures BothTokens(storage) ==> authChecked && isAuthenticated && refreshing.None?
      ensures !BothTokens(storage) && HasRefreshToken(storage) ==>
        !authChecked && !isAuthenticated && refreshing == Storage.GetItem(storage, RefreshTokenKey)
      ensures !HasRefreshToken(storage) ==> authChecked && !isAuthenticated && refreshing.None?
    {
      started := true;
      isMounted := true;
      var accessToken := Storage.GetItem(storage, AccessTokenKey);
      var refreshToken := Storage.GetItem(storage, RefreshTokenKey);
      if Storage.Present(accessToken) && Storage.Present(refreshToken) {
        isAuthenticated := true;
        authChecked := true;
        return;
      }
      if Storage.Present(refreshToken) {
        refreshing := refreshToken;
      } else {
        // The effect has just set `isMounted`, so this guard always passes here.
        if isMounted {
          isAuthenticated := false;
          authChecked := true;
        }
      }
    }

    /**
     * Lines 23-34: the refresh settles. A new pair overwrites both stored
     * tokens; a failure removes both. Either way the flags are only updated
     * while mounted: signed in exactly on success, and checked.
     */
    method RefreshSettled(outcome: RefreshOutcome)
      requires Valid() && refreshing.Some?
      modifies this
      ensures Valid() && refreshing.None? && started == old(started) && isMounted == old(isMounted)
      ensures outcome.Refreshed? ==>
        storage == old(storage)[AccessTokenKey := outcome.accessToken][RefreshTokenKey := outcome.refreshToken]
      ensures outcome.RefreshFailed? ==> storage == old(storage) - {AccessTokenKey, RefreshTokenKey}
      ensures isMounted ==> authChecked && isAuthenticated == outcome.Refreshed?
      ensures !isMounted ==> authChecked == old(authChecked) && isAuthenticated == old(isAuthenticated)
    {
      match outcome {
        case Refreshed(access, refresh) =>
          storage := storage[AccessTokenKey := access];
          storage := storage[RefreshTokenKey := refresh];
          if isMounted {
            isAuthenticated := true;
          }
        case RefreshFailed =>
          storage := storage - {AccessTokenKey};
          storage := storage - {RefreshTokenKey};
          if isMounted {
            isAuthenticated := false;
          }
      }
      if isMounted {
        authChecked := true;
      }
      refreshing := None;
    }

    /** Line 43: the effect's cleanup clears `isMounted`; nothing else changes. */
    method Unmount()
      requires Valid()
      modifies this`isMounted
      ensures Valid() && !isMounted
    {
      isMounted := false;
    }

    /**
     * Lines 46-48: what the guard renders now. Nothing until the check has
     * completed, then the login redirect when signed out, the page when
     * signed in.
     */
    function Render(): (v: View)
      reads this
      ensures v == Nothing <==> !authChecked
      ensures v == RedirectToLogin <==> authChecked && !isAuthenticated
      ensures v == Children <==> authChecked && isAuthenticated
    {
      Decide(authChecked, isAuthenticated)
    }
  }

  /**
   * Both stored tokens: the check completes at once, signed in, with no
   * refresh call and the storage unchanged, and the page is shown.
   */
  method BothTokensShowPage(store: Storage.Store) returns (v: View)
    requires BothTokens(store)
    ensures v == Children
  {
    var guard := new RequireAuth(store);
    guard.CheckAuth();
    assert guard.refreshing.None? && guard.storage == store;
    v := guard.Render();
  }

  /**
   * No refresh token, with or without an access token: the check completes
   * at once, signed out, with the storage unchanged, and the guard redirects.
   */
  method NoRefreshTokenRedirects(store: Storage.Store) returns (v: View)
    requires !HasRefreshToken(store)
    ensures v == RedirectToLogin
  {
    var guard := new RequireAuth(store);
    guard.CheckAuth();
    assert guard.storage == store;
    v := guard.Render();
  }

  /**
   * A refresh token alone, refreshed while still mounted: the new pair is
   * stored and the page is shown; a failed refresh clears both tokens and
   * redirects.
   */
  method RefreshWhileMounted(store: Storage.Store, outcome: RefreshOutcome) returns (v: View, after: Storage.Store)
    requires HasRefreshToken(store) && !BothTokens(store)
    ensures outcome.Refreshed? ==>
      && v == Children
      && Storage.GetItem(after, AccessTokenKey) == Some(outcome.accessToken)
      && Storage.GetItem(after, RefreshTokenKey) == Some(outcome.refreshToken)
    ensures outcome.RefreshFailed? ==>
      && v == RedirectToLogin
      && Storage.GetItem(after, AccessTokenKey).None? && Storage.GetItem(after, RefreshTokenKey).None?
  {
    var guard := new RequireAuth(store);
    guard.CheckAuth();
    guard.RefreshSettled(outcome);
    v := guard.Render();
    after := guard.storage;
  }

  /**
   * A refresh that settles after unmounting still writes the storage but
   * leaves the guard unchecked, so it renders nothing.
   */
  method RefreshAfterUnmount(store: Storage.Store, outcome: RefreshOutcome) returns (v: View, after: Storage.Store)
    requires HasRefreshToken(store) && !BothTokens(store)
    ensures v == Nothing
    ensures outcome.Refreshed? ==>
      && Storage.GetItem(after, AccessTokenKey) == Some(outcome.accessToken)
      && Storage.GetItem(after, RefreshTokenKey) == Some(outcome.refreshToken)
    ensures outcome.RefreshFailed? ==>
      Storage.GetItem(after, AccessTokenKey).None? && Storage.GetItem(after, RefreshTokenKey).None?
  {
    var guard := new RequireAuth(store);
    guard.CheckAuth();
    guard.Unmount();
    guard.RefreshSettled(outcome);
    v := guard.Render();
    after := guard.storage;
  }
}

/**
 * The session controller behind the authentication context: the state cells `token`,
 * `user`, `isLoading` and `isProfileLoading`, the credential store they keep in step with,
 * and the four operations `login`, `logout`, `refreshToken` and the initial load.
 *
 * The server calls are parameters: the profile (`None` when `getMyProfile` throws), the
 * refreshed access token (`None` when the refresh call throws), and the JWT payload decoder
 * and clock used by `isTokenValid`. The trail `effects` records, in order, the calls the
 * controller makes to storage and to the server, and the clearing of the query cache.
 */
module Session {
  import opened Wrappers
  import opened TokenStorage
  import AuthService
  import ApiClient

  /** The profile returned by `getMyProfile` (the `User` type). */
  datatype User = User(id: int, email: string, nickname: string, authProvider: string,
                       createdAt: string, lastLoginAt: Option<string>, isActive: bool, role: string)

  /** The calls the controller makes, in order. */
  datatype SessionEffect =
    | CredentialWritten(token: string)
    | CredentialDeleted
    | ProfileRequested
    | RemoteLogout(token: string)
    | RefreshRequested(token: string)
    | QueryCacheCleared

  /** Whether the first, direct read of the initial load throws on a native platform: the
      probe throws, or the store it selects fails. */
  predicate FirstReadThrows(probe: Probe, faults: Faults) {
    match probe
    case ProbeThrows => true
    case Reports(available) => if available then faults.secureFails else faults.fallbackFails
  }

  /** The token the initial load reads straight from storage, without the availability
      cache. On the web it is the fallback store. On a native platform it is the store the
      probe selects; if the probe or that read throws, the inner `catch` reads the fallback
      store once more, and `retryFails` says whether that second read throws too. `None`
      when the last read made throws, which ends in the load's outer `catch`. */
  function InitialRead(s: Slots, isWeb: bool, probe: Probe, faults: Faults, retryFails: bool)
    : (r: Option<Option<string>>)
    ensures r.Some? ==> r.value == s.secure || r.value == s.fallback
    ensures r.None? <==> if isWeb then faults.fallbackFails else FirstReadThrows(probe, faults) && retryFails
    ensures !isWeb && probe == Reports(true) && !faults.secureFails ==> r == Some(s.secure)
    ensures !isWeb && FirstReadThrows(probe, faults) && !retryFails ==> r == Some(s.fallback)
    ensures (isWeb || probe == Reports(false)) && !faults.fallbackFails ==> r == Some(s.fallback)
  {
    if isWeb then
      if faults.fallbackFails then None else Some(s.fallback)
    else if !FirstReadThrows(probe, faults) then
      if probe == Reports(true) then Some(s.secure) else Some(s.fallback)
    else if retryFails then None
    else Some(s.fallback)
  }

  /** Before anything is cached, and when the retried fallback read fails exactly as the
      client's own fallback read would, the initial read finds the same token as the client's
      `getToken`, except that a failing fallback read throws instead of giving null. */
  lemma InitialReadMatchesGetToken(s: Slots, isWeb: bool, probe: Probe, faults: Faults)
    requires s.availability.None?
    ensures var r := InitialRead(s, isWeb, probe, faults, faults.fallbackFails);
      && (r.Some? ==> r.value == ReadOutcome(s, isWeb, probe, faults))
      && (r.None? ==> ReadOutcome(s, isWeb, probe, faults).None?)
  {
  }

  /** Whether the initial load adopts the stored token: it was read, is non-empty and has
      not expired. */
  predicate Restorable(read: Option<Option<string>>, decode: string -> Option<AuthService.Claims>, nowMs: int) {
    read.Some? && ApiClient.HasToken(read.value) && AuthService.IsTokenValid(read.value.value, decode, nowMs)
  }

  class SessionController {
    const store: CredentialStore
    var token: Option<string>
    var user: Option<User>
    var isLoading: bool
    var isProfileLoading: bool
    var effects: seq<SessionEffect>

    /** A profile is only ever held together with the token it was loaded for. */
    predicate Consistent()
      reads this
    {
      user.Some? ==> token.Some?
    }

    /** `isAuthenticated`: a loaded profile, not merely a held token. */
    function IsAuthenticated(): (authenticated: bool)
      reads this
      ensures authenticated <==> user.Some?
      ensures Consistent() && authenticated ==> token.Some?
      ensures token.None? && Consistent() ==> !authenticated
    {
      user.Some?
    }

    /** The initial state: no token, no user, loading. */
    constructor(store: CredentialStore)
      ensures this.store == store
      ensures token.None? && user.None? && isLoading && !isProfileLoading && effects == []
      ensures Consistent()
    {
      this.store := store;
      token := None;
      user := None;
      isLoading := true;
      isProfileLoading := false;
      effects := [];
    }

    /** `login`. The validity check throws inside the `try`, so an invalid token still runs
        the `catch`: the credential is deleted and both cells are cleared. A valid token is
        stored before the profile is requested; a failed write or a failed profile request
        deletes the credential and clears both cells. `ok` is `false` exactly when the call
        rethrows. */
    method Login(newToken: string, decode: string -> Option<AuthService.Claims>, nowMs: int,
                 probe: Probe, writeFaults: Faults, deleteFaults: Faults, profile: Option<User>)
      returns (ok: bool)
      requires store.Valid()
      modifies this, store
      ensures store.Valid()
      ensures Consistent()
      ensures !isProfileLoading && isLoading == old(isLoading)
      ensures var w := AfterSet(old(store.State()), store.isWeb, probe, writeFaults, newToken);
        && (ok <==> AuthService.IsTokenValid(newToken, decode, nowMs) && w.stored && profile.Some?)
        && (ok ==> token == Some(newToken) && user == profile && IsAuthenticated()
                   && store.State() == w.slots
                   && effects == old(effects) + [CredentialWritten(newToken), ProfileRequested])
        && (!ok ==> token.None? && user.None? && !IsAuthenticated())
        && (!AuthService.IsTokenValid(newToken, decode, nowMs) ==>
              && store.State() == AfterDelete(old(store.State()), store.isWeb, probe, deleteFaults)
              && effects == old(effects) + [CredentialDeleted])
        && (AuthService.IsTokenValid(newToken, decode, nowMs) && !ok ==>
              && store.State() == AfterDelete(w.slots, store.isWeb, probe, deleteFaults)
              && effects == old(effects) + [CredentialWritten(newToken)]
                            + (if w.stored then [ProfileRequested] else []) + [CredentialDeleted])
    {
      ok := false;
      if AuthService.IsTokenValid(newToken, decode, nowMs) {
        var stored := store.SetToken(probe, writeFaults, newToken);
        effects := effects + [CredentialWritten(newToken)];
        if stored {
          token := Some(newToken);
          isProfileLoading := true;
          effects := effects + [ProfileRequested];
          if profile.Some? {
            user := profile;
            ok := true;
          }
        }
      }
      if !ok {
        store.DeleteToken(probe, deleteFaults);
        effects := effects + [CredentialDeleted];
        token := None;
        user := None;
      }
      isProfileLoading := false;
    }

    /** `logout`. The server is told only when a token is held, and its answer is ignored;
        whatever it is, the credential is deleted, both cells are cleared and then the query
        cache is cleared. */
    method Logout(probe: Probe, deleteFaults: Faults)
      requires store.Valid()
      modifies this, store
      ensures store.Valid()
      ensures Consistent()
      ensures token.None? && user.None? && !IsAuthenticated()
      ensures isLoading == old(isLoading) && isProfileLoading == old(isProfileLoading)
      ensures store.State() == AfterDelete(old(store.State()), store.isWeb, probe, deleteFaults)
      ensures effects == old(effects)
        + (if ApiClient.HasToken(old(token)) then [RemoteLogout(old(token).value)] else [])
        + [CredentialDeleted, QueryCacheCleared]
    {
      if ApiClient.HasToken(token) {
        effects := effects + [RemoteLogout(token.value)];
      }
      store.DeleteToken(probe, deleteFaults);
      effects := effects + [CredentialDeleted];
      token := None;
      user := None;
      effects := effects + [QueryCacheCleared];
    }

    /** `refreshToken`. Without a token nothing happens. Otherwise the refreshed token is
        stored and adopted, and any failure (of the refresh call or of the write) logs out. */
    method RefreshToken(refreshed: Option<string>, probe: Probe, writeFaults: Faults, deleteFaults: Faults)
      requires store.Valid() && Consistent()
      modifies this, store
      ensures store.Valid() && Consistent()
      ensures isLoading == old(isLoading) && isProfileLoading == old(isProfileLoading)
      ensures !ApiClient.HasToken(old(token)) ==>
        && token == old(token) && user == old(user)
        && effects == old(effects) && store.State() == old(store.State())
      ensures ApiClient.HasToken(old(token)) && refreshed.None? ==>
        && token.None? && user.None?
        && store.State() == AfterDelete(old(store.State()), store.isWeb, probe, deleteFaults)
        && effects == old(effects) + [RefreshRequested(old(token).value), RemoteLogout(old(token).value),
                                      CredentialDeleted, QueryCacheCleared]
      ensures ApiClient.HasToken(old(token)) && refreshed.Some? ==>
        var w := AfterSet(old(store.State()), store.isWeb, probe, writeFaults, refreshed.value);
        && (w.stored ==>
              && token == refreshed && user == old(user) && store.State() == w.slots
              && effects == old(effects) + [RefreshRequested(old(token).value), CredentialWritten(refreshed.value)])
        && (!w.stored ==>
              && token.None? && user.None?
              && store.State() == AfterDelete(w.slots, store.isWeb, probe, deleteFaults)
              && effects == old(effects) + [RefreshRequested(old(token).value), CredentialWritten(refreshed.value),
                                            RemoteLogout(old(token).value), CredentialDeleted, QueryCacheCleared])
    {
      if !ApiClient.HasToken(token) {
        return;
      }
      effects := effects + [RefreshRequested(token.value)];
      if refreshed.None? {
        Logout(probe, deleteFaults);
        return;
      }
      var stored := store.SetToken(probe, writeFaults, refreshed.value);
      effects := effects + [CredentialWritten(refreshed.value)];
      if stored {
        token := refreshed;
      } else {
        Logout(probe, deleteFaults);
      }
    }

    /** `loadInitialToken`. A stored, non-empty, unexpired token is adopted and the profile
        requested. A missing or empty token clears both cells and touches nothing else; an
        expired one is also deleted. The profile request reads the token through the client,
        which decides its availability cache with `cacheProbe`. A failing read or profile
        request deletes the credential and clears both cells. Every path ends with both loading flags down, and with a token
        exactly when there is a user. `probe` is the direct availability probe, `readFaults`
        the faults of the first read and `retryFails` those of the fallback read retried in
        the inner `catch`; `cacheProbe` is the one `deleteToken` consults through the
        client's cache. */
    method LoadInitialToken(decode: string -> Option<AuthService.Claims>, nowMs: int,
                            probe: Probe, readFaults: Faults, retryFails: bool, profile: Option<User>,
                            cacheProbe: Probe, deleteFaults: Faults)
      requires store.Valid()
      modifies this, store
      ensures store.Valid()
      ensures !isLoading && !isProfileLoading
      ensures token.Some? <==> user.Some?
      ensures Consistent()
      ensures var read := InitialRead(old(store.State()), store.isWeb, probe, readFaults, retryFails);
        var deleted := AfterDelete(old(store.State()), store.isWeb, cacheProbe, deleteFaults);
        && (IsAuthenticated() <==> Restorable(read, decode, nowMs) && profile.Some?)
        && (IsAuthenticated() ==>
              && token == read.value && user == profile
              && store.State() == Decided(old(store.State()), store.isWeb, cacheProbe)
              && effects == old(effects) + [ProfileRequested])
        && (read.Some? && !ApiClient.HasToken(read.value) ==>
              && store.State() == old(store.State()) && effects == old(effects))
        && (read.None? || (ApiClient.HasToken(read.value) && !Restorable(read, decode, nowMs)) ==>
              && store.State() == deleted && effects == old(effects) + [CredentialDeleted])
        && (Restorable(read, decode, nowMs) && profile.None? ==>
              && store.State() == deleted && effects == old(effects) + [ProfileRequested, CredentialDeleted])
    {
      // `failed` marks the paths that end in the shared `catch`.
      var failed := false;
      var read := InitialRead(store.State(), store.isWeb, probe, readFaults, retryFails);
      if read.None? {
        failed := true;
      } else if !Restorable(read, decode, nowMs) {
        if ApiClient.HasToken(read.value) {
          store.DeleteToken(cacheProbe, deleteFaults);
          effects := effects + [CredentialDeleted];
        }
        token := None;
        user := None;
        isLoading := false;
      } else {
        token := read.value;
        isProfileLoading := true;
        // The profile request reads the token through the client, which decides the cache.
        ghost var before := store.State();
        var _ := store.EnsureAvailability(cacheProbe);
        DeleteAfterDecide(before, store.isWeb, cacheProbe, deleteFaults);
        effects := effects + [ProfileRequested];
        if profile.Some? {
          user := profile;
        } else {
          failed := true;
        }
      }
      if failed {
        store.DeleteToken(cacheProbe, deleteFaults);
        effects := effects + [CredentialDeleted];
        token := None;
        user := None;
      }
      isLoading := false;
      isProfileLoading := false;
    }
  }

  /** After a failed login whose deletion met no fault, a fault-free read of the credential
      finds nothing, whether the token was rejected, not written, or written before the
      profile request failed. */
  lemma FailedLoginLeavesNoCredential(s: Slots, isWeb: bool, probe: Probe, writeFaults: Faults, token: string,
                                      later: Probe)
    ensures ReadOutcome(AfterDelete(s, isWeb, probe, NoFaults), isWeb, later, NoFaults).None?
    ensures ReadOutcome(AfterDelete(AfterSet(s, isWeb, probe, writeFaults, token).slots, isWeb, probe, NoFaults),
                        isWeb, later, NoFaults).None?
  {
    DeleteThenGet(s, isWeb, probe, later, NoFaults, NoFaults);
    DeleteThenGet(AfterSet(s, isWeb, probe, writeFaults, token).slots, isWeb, probe, later, NoFaults, NoFaults);
  }
}

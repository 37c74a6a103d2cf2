/** The axios client's interceptors (src/lib/axios.ts): the request interceptor
    that attaches the bearer token, and the 401 handler that runs a single
    token refresh for every request that fails while the access token is stale.

    The event loop runs each interceptor callback to its next `await` without
    interruption, so the handler is modelled as two atomic steps: what happens
    when a failed response arrives (`OnResponseError`, lines 47-79 up to the
    `await`), and what happens when the refresh call answers (`FinishRefresh`,
    lines 81-100). Network calls, the redirect and the settlement of the
    callers' promises are recorded in the `effects` log instead of performed. */
module TokenRefresh {
  import opened Common
  import opened Session

  const LoginPath := "/auth/login"

  function Bearer(token: string): string
  {
    "Bearer " + token
  }

  /** Reads the token back out of an Authorization header. */
  function TokenOf(header: string): (r: Option<string>)
    ensures r.Some? ==> Bearer(r.value) == header
  {
    if |header| >= 7 && header[..7] == "Bearer " then Some(header[7..]) else None
  }

  lemma BearerRoundTrip(token: string)
    ensures TokenOf(Bearer(token)) == Some(token)
  {
    assert Bearer(token)[..7] == "Bearer ";
    assert Bearer(token)[7..] == token;
  }

  /** The Authorization header after the request interceptor (lines 16-19):
      `Bearer <accessToken>` when the store holds a truthy token, otherwise the
      header the request already had. */
  function InterceptedAuthorization(current: Option<string>, accessToken: Option<string>): (r: Option<string>)
    ensures Truthy(accessToken) ==> r.Some? && TokenOf(r.value) == accessToken
    ensures !Truthy(accessToken) ==> r == current
  {
    if Truthy(accessToken) then
      BearerRoundTrip(accessToken.value);
      Some(Bearer(accessToken.value))
    else current
  }

  /** The request config object axios hands to the interceptors; the handler
      mutates its `_retry` flag and its Authorization header in place. */
  class RequestConfig {
    const id: nat
    var authorization: Option<string>
    var retry: bool

    constructor (id: nat, authorization: Option<string>)
      ensures this.id == id && this.authorization == authorization && !retry
    {
      this.id := id;
      this.authorization := authorization;
      retry := false;
    }
  }

  /** A rejected response: its HTTP status (None when no response came back)
      and the config of the request that produced it. */
  datatype HttpError = HttpError(status: Option<int>, config: RequestConfig)

  /** The answer of `POST /api/auth/refresh/`. */
  datatype RefreshReply = Issued(access: string) | RefreshFailed(status: Option<int>)

  /** The `err` of the catch block at line 93. */
  datatype Fault = NoRefreshToken | RefreshError(status: Option<int>)

  /** What `processQueue` sends every waiter. */
  datatype Release = Resolve(token: string) | Reject(fault: Fault)

  datatype Effect =
    | RefreshRequested(refresh: string)                      // the refresh POST, body `{ refresh }`
    | Replayed(config: RequestConfig, authorization: string) // line 92: `apiClient(config)` re-issued with this header
    | Resumed(config: RequestConfig, authorization: string)  // a waiter's promise resolves; its continuation will
                                                             // set this header and re-issue the request
    | CallerRejected(config: RequestConfig, fault: Fault)    // the caller's promise rejects with `fault`
    | LoggedOut                                              // `useAuthStore.getState().logout()`
    | Redirected(path: string)                               // `window.location.href = path`

  /** How the response handler disposed of a failed response. */
  datatype Verdict =
    | PassedThrough   // `Promise.reject(error)`, unchanged (line 103)
    | Queued          // waiting in `failedQueue` for the refresh outcome
    | Leading         // this request performs the refresh and awaits it
    | Aborted(fault: Fault)

  /** The refresh this coordinator is waiting for: the leader's config and the
      refresh token it read at line 68. */
  datatype Flight = Flight(config: RequestConfig, refresh: string)

  function RefreshCalls(effects: seq<Effect>): nat
  {
    if effects == [] then 0
    else (if effects[0].RefreshRequested? then 1 else 0) + RefreshCalls(effects[1..])
  }

  function Logouts(effects: seq<Effect>): nat
  {
    if effects == [] then 0
    else (if effects[0].LoggedOut? then 1 else 0) + Logouts(effects[1..])
  }

  function Redirects(effects: seq<Effect>): nat
  {
    if effects == [] then 0
    else (if effects[0].Redirected? then 1 else 0) + Redirects(effects[1..])
  }

  lemma {:induction false} CountsAppend(a: seq<Effect>, b: seq<Effect>)
    ensures RefreshCalls(a + b) == RefreshCalls(a) + RefreshCalls(b)
    ensures Logouts(a + b) == Logouts(a) + Logouts(b)
    ensures Redirects(a + b) == Redirects(a) + Redirects(b)
  {
    if a == [] {
      assert a + b == b;
    } else {
      assert (a + b)[0] == a[0];
      assert (a + b)[1..] == a[1..] + b;
      CountsAppend(a[1..], b);
    }
  }

  /** What releasing one waiter does (lines 33 and 35): on success its promise
      resolves with the token, and its continuation (lines 55-57) will set the
      header and re-issue the request once the running handler yields; on
      failure its promise rejects. */
  function ReleaseEffect(w: RequestConfig, r: Release): Effect
  {
    match r
    case Resolve(token) => Resumed(w, Bearer(token))
    case Reject(fault) => CallerRejected(w, fault)
  }

  /** `processQueue`'s fan-out: one release per waiter, in queue order. */
  function Released(queue: seq<RequestConfig>, r: Release): (e: seq<Effect>)
    ensures |e| == |queue|
    ensures forall i :: 0 <= i < |queue| ==> e[i] == ReleaseEffect(queue[i], r)
  {
    seq(|queue|, i requires 0 <= i < |queue| => ReleaseEffect(queue[i], r))
  }

  /** Releasing waiters never calls the refresh endpoint, never logs out and
      never redirects, however many waiters there are. */
  lemma {:induction false} FanOutIsQuiet(queue: seq<RequestConfig>, r: Release)
    ensures RefreshCalls(Released(queue, r)) == 0
    ensures Logouts(Released(queue, r)) == 0
    ensures Redirects(Released(queue, r)) == 0
  {
    if queue != [] {
      FanOutIsQuiet(queue[1..], r);
      assert Released(queue, r)[1..] == Released(queue[1..], r);
    }
  }

  /** A log with no refresh request in it counts no refresh calls. */
  lemma {:induction false} NoRefreshCalls(e: seq<Effect>)
    requires forall i :: 0 <= i < |e| ==> !e[i].RefreshRequested?
    ensures RefreshCalls(e) == 0
  {
    if e != [] {
      NoRefreshCalls(e[1..]);
    }
  }

  /** The effects of a failed refresh episode (lines 94-97) contain exactly one
      logout and one redirect, and reject every waiter and then the leader. */
  lemma FailedEpisodeLogsOutOnce(queue: seq<RequestConfig>, leader: RequestConfig, fault: Fault)
    ensures var tail := [LoggedOut, Redirected(LoginPath), CallerRejected(leader, fault)];
            Logouts(Released(queue, Reject(fault)) + tail) == 1
            && Redirects(Released(queue, Reject(fault)) + tail) == 1
            && RefreshCalls(Released(queue, Reject(fault)) + tail) == 0
  {
    var tail := [LoggedOut, Redirected(LoginPath), CallerRejected(leader, fault)];
    assert tail[1..] == [Redirected(LoginPath), CallerRejected(leader, fault)];
    assert tail[1..][1..] == [CallerRejected(leader, fault)];
    assert tail[1..][1..][1..] == [];
    var last := tail[1..][1..];
    assert Logouts(last) == 0 && Redirects(last) == 0 && RefreshCalls(last) == 0;
    assert Logouts(tail[1..]) == 0 && Redirects(tail[1..]) == 1 && RefreshCalls(tail[1..]) == 0;
    FanOutIsQuiet(queue, Reject(fault));
    CountsAppend(Released(queue, Reject(fault)), tail);
  }

  /** The module-level state of src/lib/axios.ts around the shared store. */
  class RefreshCoordinator {
    const auth: AuthStore
    var isRefreshing: bool
    var failedQueue: seq<RequestConfig>
    var inFlight: Option<Flight>
    var defaultAuthorization: Option<string>   // `apiClient.defaults.headers.common.Authorization`
    var effects: seq<Effect>
    ghost var answered: nat                    // refresh calls that have answered

    /** The single-flight invariant: waiters exist only while a refresh is
        running, the flag is up exactly while a leader waits, and every refresh
        call but the one in flight has answered, so at most one is outstanding. */
    ghost predicate Valid()
      reads this
    {
      && (|failedQueue| > 0 ==> isRefreshing)
      && (isRefreshing <==> inFlight.Some?)
      && RefreshCalls(effects) == answered + (if isRefreshing then 1 else 0)
    }

    ghost function Pending(): set<RequestConfig>
      reads this
    {
      (set w | w in failedQueue) + (if inFlight.Some? then {inFlight.value.config} else {})
    }

    /** Module load: `isRefreshing = false`, `failedQueue = []`. */
    constructor (auth: AuthStore)
      ensures Valid() && this.auth == auth
      ensures !isRefreshing && failedQueue == [] && inFlight == None
      ensures defaultAuthorization == None && effects == []
    {
      this.auth := auth;
      isRefreshing := false;
      failedQueue := [];
      inFlight := None;
      defaultAuthorization := None;
      effects := [];
      answered := 0;
    }

    /** The request interceptor (lines 14-21). */
    method AttachToken(config: RequestConfig)
      modifies config
      ensures config.authorization == InterceptedAuthorization(old(config.authorization), auth.accessToken)
      ensures config.retry == old(config.retry)
    {
      var accessToken := auth.accessToken;
      if accessToken.Some? && accessToken.value != "" {
        config.authorization := Some(Bearer(accessToken.value));
      }
    }

    /** `processQueue` (lines 30-40), followed by the waiters' continuations:
        each waiter is released in insertion order and the queue is emptied.
        A resolved waiter gets `Bearer <token>` (line 56) and is resumed, to
        re-issue later; its `_retry` flag is left as it was. */
    method ProcessQueue(r: Release)
      modifies this, set w | w in failedQueue
      ensures effects == old(effects) + Released(old(failedQueue), r)
      ensures failedQueue == []
      ensures forall w :: w in old(failedQueue) ==> w.retry == old(w.retry)
      ensures r.Resolve? ==> forall w :: w in old(failedQueue) ==> w.authorization == Some(Bearer(r.token))
      ensures r.Reject? ==> forall w :: w in old(failedQueue) ==> w.authorization == old(w.authorization)
      ensures isRefreshing == old(isRefreshing) && inFlight == old(inFlight) && answered == old(answered)
      ensures defaultAuthorization == old(defaultAuthorization)
    {
      var queue := failedQueue;
      var i := 0;
      while i < |queue|
        invariant 0 <= i <= |queue|
        invariant effects == old(effects) + Released(queue[..i], r)
        invariant forall w :: w in queue ==> w.retry == old(w.retry)
        invariant r.Resolve? ==> forall j :: 0 <= j < i ==> queue[j].authorization == Some(Bearer(r.token))
        invariant r.Reject? ==> forall w :: w in queue ==> w.authorization == old(w.authorization)
        invariant isRefreshing == old(isRefreshing) && inFlight == old(inFlight) && answered == old(answered)
        invariant defaultAuthorization == old(defaultAuthorization)
      {
        var w := queue[i];
        if r.Resolve? {
          w.authorization := Some(Bearer(r.token));
        }
        effects := effects + [ReleaseEffect(w, r)];
        assert Released(queue[..i + 1], r) == Released(queue[..i], r) + [ReleaseEffect(w, r)];
        i := i + 1;
      }
      assert queue[..i] == queue;
      failedQueue := [];
    }

    /** The response error handler up to its `await` (lines 47-79, 103). */
    method OnResponseError(error: HttpError) returns (verdict: Verdict)
      requires Valid()
      modifies this, error.config, auth
      ensures Valid()
      // not a 401, or already retried: rejected unchanged, no refresh
      ensures !(error.status == Some(401) && !old(error.config.retry)) ==>
                verdict == PassedThrough && effects == old(effects) && failedQueue == old(failedQueue)
                && isRefreshing == old(isRefreshing) && inFlight == old(inFlight)
                && error.config.retry == old(error.config.retry)
                && auth.Partialize() == old(auth.Partialize())
      // a 401 while a refresh runs: appended to the queue, no second refresh
      ensures error.status == Some(401) && !old(error.config.retry) && old(isRefreshing) ==>
                verdict == Queued && failedQueue == old(failedQueue) + [error.config]
                && effects == old(effects) && isRefreshing && inFlight == old(inFlight)
                && !error.config.retry && auth.Partialize() == old(auth.Partialize())
      // the first 401: it leads, marked `_retry`, and calls the refresh endpoint once
      ensures error.status == Some(401) && !old(error.config.retry) && !old(isRefreshing) && Truthy(old(auth.refreshToken)) ==>
                verdict == Leading && error.config.retry && isRefreshing
                && inFlight == Some(Flight(error.config, old(auth.refreshToken).value))
                && effects == old(effects) + [RefreshRequested(old(auth.refreshToken).value)]
                && failedQueue == [] && auth.Partialize() == old(auth.Partialize())
      // the first 401 with no refresh token: the failure path without calling the endpoint
      ensures error.status == Some(401) && !old(error.config.retry) && !old(isRefreshing) && !Truthy(old(auth.refreshToken)) ==>
                verdict == Aborted(NoRefreshToken) && error.config.retry && !isRefreshing && failedQueue == []
                && effects == old(effects) + [LoggedOut, Redirected(LoginPath), CallerRejected(error.config, NoRefreshToken)]
                && auth.Partialize() == SignedOut()
      ensures defaultAuthorization == old(defaultAuthorization) && answered == old(answered)
      ensures error.config.authorization == old(error.config.authorization)
    {
      var config := error.config;
      if error.status == Some(401) && !config.retry {
        if isRefreshing {
          failedQueue := failedQueue + [config];
          return Queued;
        }
        config.retry := true;
        isRefreshing := true;
        var refresh := auth.refreshToken;
        if refresh.None? || refresh.value == "" {
          // `throw new Error('No refresh token available')`, caught at line 93
          // the queue is empty here, so `processQueue` releases nobody
          assert failedQueue == [];
          auth.Logout();
          var tail := [LoggedOut, Redirected(LoginPath), CallerRejected(config, NoRefreshToken)];
          NoRefreshCalls(tail);
          CountsAppend(effects, tail);
          effects := effects + tail;
          isRefreshing := false;
          return Aborted(NoRefreshToken);
        }
        effects := effects + [RefreshRequested(refresh.value)];
        CountsAppend(old(effects), [RefreshRequested(refresh.value)]);
        inFlight := Some(Flight(config, refresh.value));
        return Leading;
      }
      return PassedThrough;
    }

    /** The refresh call answers (lines 81-100): on success the store gets the
        new access token next to the refresh token read before the call, every
        waiter is resumed with `Bearer <access>` and then the leader is
        re-issued with it (line 92), ahead of the waiters' own re-issues; on
        failure every waiter and then the leader are rejected with the same
        fault, the store is logged out once and the login redirect issued once.
        Either way the queue ends empty and the flag down. */
    method FinishRefresh(reply: RefreshReply)
      requires Valid() && isRefreshing
      modifies this, auth, Pending()
      ensures Valid() && !isRefreshing && failedQueue == [] && inFlight == None
      ensures answered == old(answered) + 1
      ensures reply.Issued? ==>
                && auth.accessToken == Some(reply.access)
                && auth.refreshToken == Some(old(inFlight).value.refresh)
                && auth.isAuthenticated && auth.user == old(auth.user)
                && defaultAuthorization == Some(Bearer(reply.access))
                && old(inFlight).value.config.authorization == Some(Bearer(reply.access))
                && (forall w :: w in old(failedQueue) ==> w.authorization == Some(Bearer(reply.access)))
                && effects == old(effects) + Released(old(failedQueue), Resolve(reply.access))
                                           + [Replayed(old(inFlight).value.config, Bearer(reply.access))]
      ensures reply.RefreshFailed? ==>
                && auth.Partialize() == SignedOut()
                && defaultAuthorization == old(defaultAuthorization)
                && effects == old(effects) + Released(old(failedQueue), Reject(RefreshError(reply.status)))
                                           + [LoggedOut, Redirected(LoginPath),
                                              CallerRejected(old(inFlight).value.config, RefreshError(reply.status))]
                && (forall w :: w in old(Pending()) ==> w.authorization == old(w.authorization))
      ensures forall w :: w in old(Pending()) ==> w.retry == old(w.retry)
    {
      match reply {
        case Issued(access) => RefreshSucceeded(access);
        case RefreshFailed(status) => RefreshRejected(status);
      }
    }

    /** The success path of lines 81-92. */
    method RefreshSucceeded(access: string)
      requires Valid() && isRefreshing
      modifies this, auth, Pending()
      ensures Valid() && !isRefreshing && failedQueue == [] && inFlight == None
      ensures answered == old(answered) + 1
      ensures auth.accessToken == Some(access)
      ensures auth.refreshToken == Some(old(inFlight).value.refresh)
      ensures auth.isAuthenticated && auth.user == old(auth.user)
      ensures defaultAuthorization == Some(Bearer(access))
      ensures old(inFlight).value.config.authorization == Some(Bearer(access))
      ensures forall w :: w in old(failedQueue) ==> w.authorization == Some(Bearer(access))
      ensures effects == old(effects) + Released(old(failedQueue), Resolve(access))
                                      + [Replayed(old(inFlight).value.config, Bearer(access))]
      ensures forall w :: w in old(Pending()) ==> w.retry == old(w.retry)
    {
      var flight := inFlight.value;
      ghost var queue := failedQueue;
      FanOutIsQuiet(queue, Resolve(access));
      auth.SetTokens(access, flight.refresh);
      defaultAuthorization := Some(Bearer(access));
      flight.config.authorization := Some(Bearer(access));
      ProcessQueue(Resolve(access));
      CountsAppend(old(effects), Released(queue, Resolve(access)));
      NoRefreshCalls([Replayed(flight.config, Bearer(access))]);
      CountsAppend(effects, [Replayed(flight.config, Bearer(access))]);
      effects := effects + [Replayed(flight.config, Bearer(access))];
      isRefreshing := false;
      inFlight := None;
      answered := answered + 1;
    }

    /** The failure path of lines 93-100. */
    method RefreshRejected(status: Option<int>)
      requires Valid() && isRefreshing
      modifies this, auth, Pending()
      ensures Valid() && !isRefreshing && failedQueue == [] && inFlight == None
      ensures answered == old(answered) + 1
      ensures auth.Partialize() == SignedOut()
      ensures defaultAuthorization == old(defaultAuthorization)
      ensures effects == old(effects) + Released(old(failedQueue), Reject(RefreshError(status)))
                                      + [LoggedOut, Redirected(LoginPath),
                                         CallerRejected(old(inFlight).value.config, RefreshError(status))]
      ensures forall w :: w in old(Pending()) ==> w.authorization == old(w.authorization)
      ensures forall w :: w in old(Pending()) ==> w.retry == old(w.retry)
    {
      var flight := inFlight.value;
      ghost var queue := failedQueue;
      FanOutIsQuiet(queue, Reject(RefreshError(status)));
      ProcessQueue(Reject(RefreshError(status)));
      CountsAppend(old(effects), Released(queue, Reject(RefreshError(status))));
      auth.Logout();
      var tail := [LoggedOut, Redirected(LoginPath), CallerRejected(flight.config, RefreshError(status))];
      NoRefreshCalls(tail);
      CountsAppend(effects, tail);
      effects := effects + tail;
      isRefreshing := false;
      inFlight := None;
      answered := answered + 1;
    }
  }

  /** Two requests fail with 401 while the access token is stale: the first
      leads, the second waits, one refresh call is made, the waiter is resumed
      with the new token and then the leader is re-issued with it. The waiter
      carries the new header with its `_retry` flag still down, unlike the
      leader. */
  method TwoExpiredRequestsShareOneRefresh() returns (log: seq<Effect>, first: RequestConfig, second: RequestConfig)
    ensures log == [RefreshRequested("r0"), Resumed(second, "Bearer a1"), Replayed(first, "Bearer a1")]
    ensures first.retry && !second.retry
    ensures first.authorization == Some("Bearer a1") && second.authorization == Some("Bearer a1")
  {
    var auth := new AuthStore();
    auth.Login(User(7, "S-7", "s@x", "Sam", "Lee", "maker"), "a0", "r0");
    var coordinator := new RefreshCoordinator(auth);
    first := new RequestConfig(1, None);
    second := new RequestConfig(2, None);
    coordinator.AttachToken(first);
    coordinator.AttachToken(second);
    var v1 := coordinator.OnResponseError(HttpError(Some(401), first));
    assert v1 == Leading;
    var v2 := coordinator.OnResponseError(HttpError(Some(401), second));
    assert v2 == Queued && coordinator.failedQueue == [second];
    coordinator.FinishRefresh(Issued("a1"));
    assert Bearer("a1") == "Bearer a1";
    assert Released([second], Resolve("a1")) == [Resumed(second, "Bearer a1")];
    log := coordinator.effects;
  }

  /** Because a resumed waiter still has `_retry` down, a second 401 on its
      re-issue leads a second refresh, while the same 401 on the leader's
      re-issue is passed through: the waiter is retried twice, the leader once. */
  method ResumedWaiterCanRefreshAgain() returns (refreshCalls: nat, leaderVerdict: Verdict, waiterVerdict: Verdict)
    ensures refreshCalls == 2
    ensures leaderVerdict == PassedThrough && waiterVerdict == Leading
  {
    var auth := new AuthStore();
    auth.Login(User(7, "S-7", "s@x", "Sam", "Lee", "maker"), "a0", "r0");
    var coordinator := new RefreshCoordinator(auth);
    var first := new RequestConfig(1, None);
    var second := new RequestConfig(2, None);
    var v1 := coordinator.OnResponseError(HttpError(Some(401), first));
    var v2 := coordinator.OnResponseError(HttpError(Some(401), second));
    coordinator.FinishRefresh(Issued("a1"));
    // both re-issued requests are answered 401 again
    leaderVerdict := coordinator.OnResponseError(HttpError(Some(401), first));
    waiterVerdict := coordinator.OnResponseError(HttpError(Some(401), second));
    assert coordinator.Valid() && coordinator.isRefreshing;
    refreshCalls := RefreshCalls(coordinator.effects);
  }

  /** A 401 with no refresh token stored: no refresh call, one logout, one
      redirect to the login page, and the request rejected. */
  method ExpiredWithoutRefreshToken() returns (log: seq<Effect>, verdict: Verdict, signedOut: bool)
    ensures verdict == Aborted(NoRefreshToken)
    ensures RefreshCalls(log) == 0 && Logouts(log) == 1 && Redirects(log) == 1
    ensures signedOut
  {
    var auth := new AuthStore();
    var coordinator := new RefreshCoordinator(auth);
    var request := new RequestConfig(1, None);
    verdict := coordinator.OnResponseError(HttpError(Some(401), request));
    log := coordinator.effects;
    FailedEpisodeLogsOutOnce([], request, NoRefreshToken);
    assert Released([], Reject(NoRefreshToken)) + log == log;
    signedOut := auth.Partialize() == SignedOut();
  }
}

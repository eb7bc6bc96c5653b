/** The admin pages' session monitor: the token cached in session storage,
    the idle logout timer, the self-rescheduling token refresh, and the
    request wrapper that adds the bearer credential and retries once after
    a refresh. The browser is abstracted: timers are a table of pending
    callbacks with due times on a millisecond clock, navigation is the page
    the browser was last sent to, and every request is appended to a log.
    What the server answers is passed in. */
module Session {
  import opened Wrappers
  import opened Json
  import opened Tokens

  const LoginPage := "login.html"
  /** `idleTimeout`: 20 minutes. */
  const IdleTimeout: nat := 20 * 60 * 1000
  /** `refreshThreshold`: refresh 5 minutes before the token runs out. */
  const RefreshThreshold: nat := 5 * 60 * 1000
  const RefreshUrl := "/api/auth/refresh"
  const VerifyUrl := "/api/auth/verify"
  const Authorization := "Authorization"
  const NoTokenReason := "No token"
  const SessionExpiredReason := "Session expired"

  // ---------------------------------------------------------------------
  // The browser around the monitor

  datatype Request = Request(url: string, httpMethod: string, headers: map<string, string>)

  /** What a `fetch` gives: a response with its status and parsed JSON body
      (`Undefined` when the body is not JSON), or a network error. */
  datatype ServerAnswer = Answered(status: int, body: Value) | Unreachable(error: string)

  datatype TimerAction = IdleLogout | ScheduledRefresh

  datatype Timer = Timer(due: nat, action: TimerAction)

  datatype MonitorState = MonitorState(
    token: Option<string>,
    navigatedTo: Option<string>,
    timers: map<nat, Timer>,
    idleTimer: Option<nat>,
    nextHandle: nat,
    now: nat,
    sent: seq<Request>)

  /** `res.ok`. */
  predicate Ok(status: int) {
    200 <= status <= 299
  }

  /** The body of an ok response that `res.json()` reads and whose fields
      can be read; a body that is not JSON, or is `null`, throws. */
  function OkData(a: ServerAnswer): (d: Option<Value>)
    ensures d.Some? <==> a.Answered? && Ok(a.status) && !a.body.Undefined? && !a.body.Null?
    ensures d.Some? ==> d.value == a.body
  {
    if a.Answered? && Ok(a.status) && !a.body.Undefined? && !a.body.Null? then Some(a.body) else None
  }

  /** `if (!token)` on what session storage holds. */
  predicate HasCached(token: Option<string>) {
    token.Some? && token.value != ""
  }

  /** `{ ...headers, 'Authorization': `Bearer ${token}` }`. */
  function WithBearer(headers: map<string, string>, token: string): (h: map<string, string>)
    ensures h.Keys == headers.Keys + {Authorization}
    ensures h[Authorization] == BearerPrefix + token
    ensures forall k :: k in headers && k != Authorization ==> h[k] == headers[k]
  {
    headers[Authorization := BearerPrefix + token]
  }

  /** The server reads the cached token back from the credential the monitor sends. */
  lemma ServerReadsCredential(headers: map<string, string>, token: string)
    ensures BearerToken(Some(WithBearer(headers, token)[Authorization])) == Some(token)
  {
    BearerTokenOfCredential(token);
  }

  /** Handles below `nextHandle` are used and never handed out again; every
      pending idle logout is the one `idleTimer` holds, so at most one is
      pending, and clearing `idleTimer` can only clear an idle logout. */
  predicate Valid(s: MonitorState) {
    && (forall h :: h in s.timers ==> h < s.nextHandle)
    && (s.idleTimer.Some? ==> s.idleTimer.value < s.nextHandle)
    && (s.idleTimer.Some? && s.idleTimer.value in s.timers ==> s.timers[s.idleTimer.value].action == IdleLogout)
    && (forall h :: h in s.timers && s.timers[h].action == IdleLogout ==> s.idleTimer == Some(h))
  }

  lemma AtMostOneIdleLogout(s: MonitorState, h1: nat, h2: nat)
    requires Valid(s)
    requires h1 in s.timers && s.timers[h1].action == IdleLogout
    requires h2 in s.timers && s.timers[h2].action == IdleLogout
    ensures h1 == h2
  {
  }

  // ---------------------------------------------------------------------
  // The monitor's steps, as functions of the state

  /** `logout`: the token is removed and the browser goes to the login page. */
  function LoggedOut(s: MonitorState): (r: MonitorState)
    ensures r.token.None? && r.navigatedTo == Some(LoginPage)
    ensures r.timers == s.timers && r.idleTimer == s.idleTimer && r.sent == s.sent && r.now == s.now
    ensures Valid(s) ==> Valid(r)
  {
    s.(token := None, navigatedTo := Some(LoginPage))
  }

  function Sent(s: MonitorState, req: Request): (r: MonitorState)
    ensures r.sent == s.sent + [req] && r.token == s.token && r.navigatedTo == s.navigatedTo
    ensures Valid(s) ==> Valid(r)
  {
    s.(sent := s.sent + [req])
  }

  /** `checkAuth` on the page at `pathname`: the login page itself is never
      guarded; elsewhere a missing token sends the browser to the login page. */
  function CheckedAuth(s: MonitorState, pathname: string): (r: (MonitorState, bool))
    ensures r.1 <==> !EndsWith(pathname, LoginPage) && HasCached(s.token)
    ensures !EndsWith(pathname, LoginPage) && !HasCached(s.token) ==> r.0 == s.(navigatedTo := Some(LoginPage))
    ensures EndsWith(pathname, LoginPage) || HasCached(s.token) ==> r.0 == s
  {
    if EndsWith(pathname, LoginPage) then (s, false)
    else if !HasCached(s.token) then (s.(navigatedTo := Some(LoginPage)), false)
    else (s, true)
  }

  predicate EndsWith(s: string, suffix: string) {
    |suffix| <= |s| && s[|s| - |suffix|..] == suffix
  }

  /** `resetIdleTimer`: the pending idle logout, if any, is cleared and a new
      one is set `IdleTimeout` ahead. */
  function IdleReset(s: MonitorState): (r: MonitorState)
    requires Valid(s)
    ensures Valid(r)
    ensures r.idleTimer == Some(s.nextHandle) && r.nextHandle == s.nextHandle + 1
    ensures s.nextHandle in r.timers && r.timers[s.nextHandle] == Timer(s.now + IdleTimeout, IdleLogout)
    ensures forall h :: h in r.timers && r.timers[h].action == IdleLogout ==> h == s.nextHandle
    ensures forall h :: h in s.timers && s.timers[h].action != IdleLogout ==> h in r.timers && r.timers[h] == s.timers[h]
    ensures r.token == s.token && r.sent == s.sent && r.navigatedTo == s.navigatedTo && r.now == s.now
  {
    var cleared := if s.idleTimer.Some? then s.timers - {s.idleTimer.value} else s.timers;
    var h := s.nextHandle;
    s.(timers := cleared[h := Timer(s.now + IdleTimeout, IdleLogout)], idleTimer := Some(h), nextHandle := h + 1)
  }

  /** The idle logout fires: its timer is gone and the session is logged out. */
  function IdleFired(s: MonitorState): (r: MonitorState)
    requires s.idleTimer.Some? && s.idleTimer.value in s.timers
    ensures r.token.None? && r.navigatedTo == Some(LoginPage)
    ensures r.timers == s.timers - {s.idleTimer.value}
    ensures Valid(s) ==> Valid(r)
  {
    LoggedOut(s.(timers := s.timers - {s.idleTimer.value}))
  }

  datatype Refresh = Refresh(state: MonitorState, refreshed: bool)

  /** `refreshToken`: without a token nothing is sent and the answer is
      false; otherwise the refresh request goes out, and only an ok answer
      whose JSON can be read replaces the token with `data.token`. */
  function Refreshed(s: MonitorState, answer: ServerAnswer): (r: Refresh)
    ensures !HasCached(s.token) ==> r == Refresh(s, false)
    ensures HasCached(s.token) ==>
      r.state.sent == s.sent + [Request(RefreshUrl, "POST", WithBearer(map[], s.token.value))]
    ensures HasCached(s.token) ==> (r.refreshed <==> OkData(answer).Some?)
    ensures r.refreshed ==> r.state.token == Some(JsString(Get(answer.body, "token")))
    ensures !r.refreshed ==> r.state.token == s.token
    ensures r.state.timers == s.timers && r.state.idleTimer == s.idleTimer && r.state.nextHandle == s.nextHandle
    ensures r.state.now == s.now && r.state.navigatedTo == s.navigatedTo
    ensures Valid(s) ==> Valid(r.state)
  {
    if !HasCached(s.token) then Refresh(s, false)
    else
      var s1 := Sent(s, Request(RefreshUrl, "POST", WithBearer(map[], s.token.value)));
      match OkData(answer)
      case None => Refresh(s1, false)
      case Some(data) => Refresh(s1.(token := Some(JsString(Get(data, "token")))), true)
  }

  /** `max(0, expiresIn * 1000 - refreshThreshold)`. An `expiresIn` that is
      not a number makes the delay NaN, which is not positive either; it is
      given as 0. */
  function RefreshDelay(expiresIn: Value): (d: nat)
    ensures JsNumber(expiresIn).None? ==> d == 0
    ensures JsNumber(expiresIn).Some? ==> d >= JsNumber(expiresIn).value * 1000 - RefreshThreshold
    ensures d > 0 <==> JsNumber(expiresIn).Some? && JsNumber(expiresIn).value * 1000 > RefreshThreshold
    ensures d > 0 ==> d == JsNumber(expiresIn).value * 1000 - RefreshThreshold
  {
    match JsNumber(expiresIn)
    case None => 0
    case Some(n) => if n * 1000 - RefreshThreshold > 0 then n * 1000 - RefreshThreshold else 0
  }

  /** A token fresh from the server, 24 hours of life, is refreshed five
      minutes before it runs out. */
  lemma DelayForFreshToken()
    ensures RefreshDelay(Num(Lifetime)) == Lifetime * 1000 - RefreshThreshold
    ensures RefreshDelay(Num(Lifetime)) == 86100000
  {
  }

  /** `verifyAndScheduleRefresh`: without a token nothing happens; the verify
      request goes out; an ok answer either schedules one refresh `delay`
      ahead or, when the delay is not positive, refreshes at once (with
      `refresh` as the server's answer) and schedules nothing. */
  function Verified(s: MonitorState, verify: ServerAnswer, refresh: ServerAnswer): (r: MonitorState)
    ensures !HasCached(s.token) ==> r == s
    ensures HasCached(s.token) && OkData(verify).None? ==>
      r == Sent(s, Request(VerifyUrl, "GET", WithBearer(map[], s.token.value)))
    ensures HasCached(s.token) && OkData(verify).Some? ==>
      var s1 := Sent(s, Request(VerifyUrl, "GET", WithBearer(map[], s.token.value)));
      var d := RefreshDelay(Get(verify.body, "expiresIn"));
      if d > 0 then r == s1.(timers := s1.timers[s.nextHandle := Timer(s.now + d, ScheduledRefresh)], nextHandle := s.nextHandle + 1)
      else r == Refreshed(s1, refresh).state
    ensures Valid(s) ==> Valid(r)
    ensures r.idleTimer == s.idleTimer && r.now == s.now && r.navigatedTo == s.navigatedTo
  {
    if !HasCached(s.token) then s
    else
      var s1 := Sent(s, Request(VerifyUrl, "GET", WithBearer(map[], s.token.value)));
      match OkData(verify)
      case None => s1
      case Some(data) =>
        var d := RefreshDelay(Get(data, "expiresIn"));
        if d > 0 then s1.(timers := s1.timers[s.nextHandle := Timer(s.now + d, ScheduledRefresh)], nextHandle := s.nextHandle + 1)
        else Refreshed(s1, refresh).state
  }

  /** The number of handles `Verified` newly schedules. */
  lemma VerifySchedulesAtMostOne(s: MonitorState, verify: ServerAnswer, refresh: ServerAnswer)
    requires Valid(s)
    ensures var r := Verified(s, verify, refresh);
      && r.nextHandle <= s.nextHandle + 1
      && (forall h :: h in r.timers && h !in s.timers ==> h == s.nextHandle && r.timers[h].action == ScheduledRefresh)
      && (forall h :: h in s.timers ==> h in r.timers && r.timers[h] == s.timers[h])
  {
  }

  /** The immediate-refresh branch never reschedules. */
  lemma ImmediateRefreshDoesNotReschedule(s: MonitorState, verify: ServerAnswer, refresh: ServerAnswer)
    requires HasCached(s.token) && OkData(verify).Some?
    requires RefreshDelay(Get(verify.body, "expiresIn")) == 0
    ensures Verified(s, verify, refresh).timers == s.timers
    ensures Verified(s, verify, refresh).nextHandle == s.nextHandle
  {
  }

  /** A scheduled refresh fires: its timer is gone; if a token is still
      cached it refreshes (server answer `refresh`) and verifies again
      (answers `verify` and `again`), which may schedule the next one. */
  function RefreshFired(s: MonitorState, h: nat, refresh: ServerAnswer, verify: ServerAnswer, again: ServerAnswer): (r: MonitorState)
    requires h in s.timers
    ensures !HasCached(s.token) ==> r == s.(timers := s.timers - {h})
    ensures HasCached(s.token) ==>
      r == Verified(Refreshed(s.(timers := s.timers - {h}), refresh).state, verify, again)
    ensures Valid(s) ==> Valid(r)
  {
    var s1 := s.(timers := s.timers - {h});
    if HasCached(s1.token) then Verified(Refreshed(s1, refresh).state, verify, again) else s1
  }

  /** After a logout no refresh callback sends anything or brings a token back. */
  lemma NoRefreshAfterLogout(s: MonitorState, h: nat, refresh: ServerAnswer, verify: ServerAnswer, again: ServerAnswer)
    requires h in s.timers
    ensures RefreshFired(LoggedOut(s), h, refresh, verify, again).sent == s.sent
    ensures RefreshFired(LoggedOut(s), h, refresh, verify, again).token.None?
  {
  }

  datatype FetchOutcome = Resolved(response: ServerAnswer) | Rejected(reason: string) | Thrown(error: string)

  datatype Fetch = Fetch(state: MonitorState, outcome: FetchOutcome)

  /** `fetchWithAuth(url, { method: httpMethod, headers })` with the server answering
      `first` to the request, `refresh` to the refresh and `second` to the resend. */
  function Fetched(s: MonitorState, url: string, httpMethod: string, headers: map<string, string>,
                   first: ServerAnswer, refresh: ServerAnswer, second: ServerAnswer): (r: Fetch)
    ensures Valid(s) ==> Valid(r.state)
    ensures r.state.timers == s.timers && r.state.idleTimer == s.idleTimer && r.state.now == s.now
    // No cached token: nothing sent, logged out, rejected.
    ensures !HasCached(s.token) ==> r == Fetch(LoggedOut(s), Rejected(NoTokenReason))
    // Otherwise the request goes out first, with the cached token as its credential.
    ensures HasCached(s.token) ==>
      |r.state.sent| > |s.sent| && r.state.sent[..|s.sent| + 1] == s.sent + [Request(url, httpMethod, WithBearer(headers, s.token.value))]
    // At most the request, one refresh and one resend.
    ensures |r.state.sent| <= |s.sent| + 3
    // A network error, or a status other than 401 and 403, comes back as is: no refresh.
    ensures HasCached(s.token) && !(first.Answered? && (first.status == 401 || first.status == 403)) ==>
      r.state.sent == s.sent + [Request(url, httpMethod, WithBearer(headers, s.token.value))]
      && r.state.token == s.token && r.state.navigatedTo == s.navigatedTo
      && r.outcome == (if first.Unreachable? then Thrown(first.error) else Resolved(first))
    // A 401 or 403 with a refresh that fails: logged out, rejected, no resend.
    ensures HasCached(s.token) && first.Answered? && (first.status == 401 || first.status == 403) && OkData(refresh).None? ==>
      r == Fetch(LoggedOut(Refreshed(Sent(s, Request(url, httpMethod, WithBearer(headers, s.token.value))), refresh).state),
                 Rejected(SessionExpiredReason))
    // A 401 or 403 with a refresh that succeeds: one resend with the new token, its answer returned.
    ensures HasCached(s.token) && first.Answered? && (first.status == 401 || first.status == 403) && OkData(refresh).Some? ==>
      var t2 := JsString(Get(refresh.body, "token"));
      && r.state.sent == s.sent + [Request(url, httpMethod, WithBearer(headers, s.token.value)),
                                   Request(RefreshUrl, "POST", WithBearer(map[], s.token.value)),
                                   Request(url, httpMethod, WithBearer(headers, t2))]
      && r.state.token == Some(t2) && r.state.navigatedTo == s.navigatedTo
      && r.outcome == (if second.Unreachable? then Thrown(second.error) else Resolved(second))
  {
    if !HasCached(s.token) then Fetch(LoggedOut(s), Rejected(NoTokenReason))
    else
      var h := WithBearer(headers, s.token.value);
      var s1 := Sent(s, Request(url, httpMethod, h));
      assert s1.sent[..|s.sent| + 1] == s1.sent;
      match first
      case Unreachable(e) => Fetch(s1, Thrown(e))
      case Answered(status, _) =>
        if status == 401 || status == 403 then
          var rf := Refreshed(s1, refresh);
          if rf.refreshed then
            var s2 := Sent(rf.state, Request(url, httpMethod, WithBearer(h, rf.state.token.value)));
            assert WithBearer(h, rf.state.token.value) == WithBearer(headers, rf.state.token.value);
            assert s2.sent[..|s.sent| + 1] == s1.sent;
            match second
            case Unreachable(e) => Fetch(s2, Thrown(e))
            case Answered(_, _) => Fetch(s2, Resolved(second))
          else
            assert rf.state.sent[..|s.sent| + 1] == s1.sent;
            Fetch(LoggedOut(rf.state), Rejected(SessionExpiredReason))
        else Fetch(s1, Resolved(first))
  }

  /** The server sees the cached token on the first request and the new
      token on the resend. */
  lemma ResendCarriesNewToken(s: MonitorState, url: string, httpMethod: string, headers: map<string, string>,
                              refresh: ServerAnswer, second: ServerAnswer, status: int)
    requires HasCached(s.token)
    requires status == 401 || status == 403
    requires OkData(refresh).Some?
    ensures var r := Fetched(s, url, httpMethod, headers, Answered(status, Undefined), refresh, second);
      && BearerToken(Some(r.state.sent[|s.sent|].headers[Authorization])) == s.token
      && BearerToken(Some(r.state.sent[|s.sent| + 2].headers[Authorization])) == r.state.token
  {
    ServerReadsCredential(headers, s.token.value);
    ServerReadsCredential(headers, JsString(Get(refresh.body, "token")));
  }

  // ---------------------------------------------------------------------
  // The monitor

  class Monitor {
    /** The page the monitor runs on (`window.location.pathname`). */
    const pathname: string
    var token: Option<string>
    var navigatedTo: Option<string>
    var timers: map<nat, Timer>
    var idleTimer: Option<nat>
    var nextHandle: nat
    var now: nat
    var sent: seq<Request>

    function State(): MonitorState
      reads this
    {
      MonitorState(token, navigatedTo, timers, idleTimer, nextHandle, now, sent)
    }

    constructor(pathname: string, token: Option<string>, now: nat)
      ensures this.pathname == pathname
      ensures State() == MonitorState(token, None, map[], None, 0, now, [])
      ensures Valid(State())
    {
      this.pathname := pathname;
      this.token := token;
      navigatedTo := None;
      timers := map[];
      idleTimer := None;
      nextHandle := 0;
      this.now := now;
      sent := [];
    }

    method Logout()
      modifies this
      ensures State() == LoggedOut(old(State()))
    {
      token := None;
      navigatedTo := Some(LoginPage);
    }

    method CheckAuth() returns (ok: bool)
      modifies this
      ensures (State(), ok) == CheckedAuth(old(State()), pathname)
    {
      if EndsWith(pathname, LoginPage) {
        return false;
      }
      if !HasCached(token) {
        navigatedTo := Some(LoginPage);
        return false;
      }
      return true;
    }

    method ResetIdleTimer()
      requires Valid(State())
      modifies this
      ensures State() == IdleReset(old(State()))
    {
      if idleTimer.Some? {
        timers := timers - {idleTimer.value};
      }
      var h := nextHandle;
      nextHandle := nextHandle + 1;
      timers := timers[h := Timer(now + IdleTimeout, IdleLogout)];
      idleTimer := Some(h);
    }

    /** The clock moves on. */
    method Advance(ms: nat)
      modifies this
      ensures State() == old(State()).(now := old(now) + ms)
    {
      now := now + ms;
    }

    /** The idle logout's callback runs once it is due. */
    method IdleTimerFires()
      requires idleTimer.Some? && idleTimer.value in timers && timers[idleTimer.value].due <= now
      modifies this
      ensures State() == IdleFired(old(State()))
    {
      timers := timers - {idleTimer.value};
      Logout();
    }

    method RefreshToken(answer: ServerAnswer) returns (refreshed: bool)
      modifies this
      ensures Refresh(State(), refreshed) == Refreshed(old(State()), answer)
    {
      if !HasCached(token) {
        return false;
      }
      sent := sent + [Request(RefreshUrl, "POST", WithBearer(map[], token.value))];
      match OkData(answer)
      case None =>
        refreshed := false;
      case Some(data) =>
        token := Some(JsString(Get(data, "token")));
        refreshed := true;
    }

    method VerifyAndScheduleRefresh(verify: ServerAnswer, refresh: ServerAnswer)
      modifies this
      ensures State() == Verified(old(State()), verify, refresh)
    {
      if !HasCached(token) {
        return;
      }
      sent := sent + [Request(VerifyUrl, "GET", WithBearer(map[], token.value))];
      match OkData(verify)
      case None =>
      case Some(data) =>
        var refreshIn := RefreshDelay(Get(data, "expiresIn"));
        if refreshIn > 0 {
          timers := timers[nextHandle := Timer(now + refreshIn, ScheduledRefresh)];
          nextHandle := nextHandle + 1;
        } else {
          var _ := RefreshToken(refresh);
        }
    }

    /** A scheduled refresh's callback runs once it is due. */
    method RefreshTimerFires(h: nat, refresh: ServerAnswer, verify: ServerAnswer, again: ServerAnswer)
      requires h in timers && timers[h].action == ScheduledRefresh && timers[h].due <= now
      modifies this
      ensures State() == RefreshFired(old(State()), h, refresh, verify, again)
    {
      timers := timers - {h};
      if HasCached(token) {
        var _ := RefreshToken(refresh);
        VerifyAndScheduleRefresh(verify, again);
      }
    }

    method FetchWithAuth(url: string, httpMethod: string, headers: map<string, string>,
                         first: ServerAnswer, refresh: ServerAnswer, second: ServerAnswer)
      returns (outcome: FetchOutcome)
      modifies this
      ensures Fetch(State(), outcome) == Fetched(old(State()), url, httpMethod, headers, first, refresh, second)
    {
      if !HasCached(token) {
        Logout();
        return Rejected(NoTokenReason);
      }
      var h := WithBearer(headers, token.value);
      sent := sent + [Request(url, httpMethod, h)];
      match first
      case Unreachable(e) =>
        outcome := Thrown(e);
      case Answered(status, _) =>
        if status == 401 || status == 403 {
          var refreshed := RefreshToken(refresh);
          if refreshed {
            h := h[Authorization := BearerPrefix + token.value];
            sent := sent + [Request(url, httpMethod, h)];
            match second
            case Unreachable(e) =>
              outcome := Thrown(e);
            case Answered(_, _) =>
              outcome := Resolved(second);
          } else {
            Logout();
            outcome := Rejected(SessionExpiredReason);
          }
        } else {
          outcome := Resolved(first);
        }
    }

    /** The page has loaded: the guard, then the idle timer, then the first
        verification. User activity afterwards is `ResetIdleTimer`. */
    method Load(verify: ServerAnswer, refresh: ServerAnswer)
      requires Valid(State())
      modifies this
      ensures Valid(State())
      ensures var c := CheckedAuth(old(State()), pathname);
        if !c.1 then State() == c.0
        else State() == Verified(IdleReset(c.0), verify, refresh)
    {
      var ok := CheckAuth();
      if !ok {
        return;
      }
      ResetIdleTimer();
      VerifyAndScheduleRefresh(verify, refresh);
    }
  }
}

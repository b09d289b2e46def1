/** The token lifecycle of `CybershuttleAuth` as a pure state machine.

    A `State` is everything the auth helper reads or changes: its three token
    fields, the `CS_ACCESS_TOKEN` environment variable, the JSON token file,
    the seconds slept while polling, the clock that `time.time()` reads and
    `time.sleep` advances, and the authorization server, whose two
    endpoints answer from scripted reply sequences and log every request.
    Each operation of the helper is a function from a `State` to the next
    `State` and what the Python call returns or raises. The imperative classes in module `Auth` are proved to follow
    these functions; the lemmas below state what the source promises. */
module AuthModel {
  import opened Wrappers
  import opened Seqs

  /** Seconds before expiry at which a cached token stops being used. */
  const SafetyMargin: int := 300
  /** Token lifetime assumed when the token response has no `expires_in`. */
  const DefaultTokenLifetime: int := 3600
  /** Device-code lifetime assumed when the device response has no `expires_in`. */
  const DefaultDeviceCodeLifetime: int := 1800
  /** Polling interval assumed when the device response has no `interval`. */
  const DefaultPollInterval: int := 5
  const DefaultClientId: string := "cybershuttle-agent"
  const DeviceScope: string := "openid"
  /** The grant type of section 3.4 of RFC 8628. */
  const DeviceCodeGrantType: string := "urn:ietf:params:oauth:grant-type:device_code"
  /** The error code of section 3.5 of RFC 8628 that keeps the client polling. */
  const PendingError: string := "authorization_pending"

  /** The exceptions that escape the helper's methods. */
  datatype Exception = TypeError | ValueError

  /** A Python call either returns a value or raises. */
  datatype Attempt<+T> = Returned(value: T) | Raised(exception: Exception)

  /** The JSON object stored in the token file. */
  datatype TokenRecord = TokenRecord(
    accessToken: Option<string>,
    refreshToken: Option<string>,
    expiresAt: Option<int>,
    timestamp: int)

  /** The token file: missing, unreadable or unparsable, or a stored record. */
  datatype TokenFile = Absent | Corrupt | Present(record: TokenRecord)

  /** One reply of an authorization-server endpoint, as the client tells them
      apart: HTTP 200 with its JSON body, HTTP 400 with its `error` member,
      any other status, or a `requests.RequestException` (which includes a
      body that is not JSON). */
  datatype Reply<+J> = Status200(body: J) | Status400(error: Option<string>) | OtherStatus | NetworkError

  /** The JSON body of a successful device authorization response
      (section 3.2 of RFC 8628); every member may be missing. */
  datatype DeviceGrant = DeviceGrant(
    deviceCode: Option<string>,
    userCode: Option<string>,
    verificationUri: Option<string>,
    verificationUriComplete: Option<string>,
    expiresIn: Option<int>,
    interval: Option<int>)

  /** The JSON body of a successful token response. */
  datatype TokenGrant = TokenGrant(
    accessToken: Option<string>,
    refreshToken: Option<string>,
    expiresIn: Option<int>)

  /** The form sent to the device endpoint. */
  datatype DeviceRequest = DeviceRequest(clientId: string, scope: string)

  /** The form sent to the token endpoint. */
  datatype TokenRequest = TokenRequest(clientId: string, grantType: string, deviceCode: Option<string>)

  /** The transient device-flow session, with the defaults applied. */
  datatype DeviceSession = DeviceSession(
    deviceCode: Option<string>,
    userCode: Option<string>,
    verificationUri: Option<string>,
    verificationUriComplete: Option<string>,
    expiresIn: int,
    interval: int)

  /** The authorization server: replies still to be given and requests received. */
  datatype Server = Server(
    deviceReplies: seq<Reply<DeviceGrant>>,
    tokenReplies: seq<Reply<TokenGrant>>,
    deviceLog: seq<DeviceRequest>,
    tokenLog: seq<TokenRequest>)

  /** Everything the auth helper reads or changes. */
  datatype State = State(
    clientId: string,
    accessToken: Option<string>,
    refreshToken: Option<string>,
    expiresAt: Option<int>,
    env: Option<string>,
    file: TokenFile,
    writable: bool,
    slept: seq<int>,
    clock: int,
    server: Server)

  /** `_is_token_valid`: a non-empty token with a non-zero expiry that lies
      more than the safety margin ahead of `now`. */
  predicate Usable(accessToken: Option<string>, expiresAt: Option<int>, now: int) {
    Truthy(accessToken) && expiresAt.Some? && expiresAt.value != 0
    && now < expiresAt.value - SafetyMargin
  }

  /** The exact boundary of the safety margin. */
  lemma UsableBoundary(token: string, now: int)
    requires token != ""
    ensures !Usable(Some(token), Some(now + SafetyMargin), now)
    ensures now + SafetyMargin + 1 != 0 ==> Usable(Some(token), Some(now + SafetyMargin + 1), now)
  {
  }

  /** A usable token stays usable at every earlier time, so expiry is the
      only way it becomes unusable. */
  lemma UsableEarlier(accessToken: Option<string>, expiresAt: Option<int>, now: int, earlier: int)
    requires Usable(accessToken, expiresAt, now) && earlier <= now
    ensures Usable(accessToken, expiresAt, earlier)
  {
  }

  // ---------------------------------------------------------------------
  // Token file and environment (`_save_token`, `_load_token`, `logout`)
  // ---------------------------------------------------------------------

  /** `_save_token(token_data)`, reading the clock once for the expiry and
      once for the timestamp. The three fields are set
      first; mirroring a missing access token into the environment raises
      `TypeError` before anything else happens; otherwise the environment
      is set and the record is written when the file can be written (a
      failed write is only logged). */
  function Save(s: State, g: TokenGrant): (State, Attempt<()>) {
    var now := s.clock;
    var s1 := s.(accessToken := g.accessToken, refreshToken := g.refreshToken,
                 expiresAt := Some(now + g.expiresIn.GetOr(DefaultTokenLifetime)));
    if g.accessToken.None? then (s1, Raised(TypeError))
    else
      var s2 := s1.(env := g.accessToken);
      var record := TokenRecord(s2.accessToken, s2.refreshToken, s2.expiresAt, now);
      (if s.writable then s2.(file := Present(record)) else s2, Returned(()))
  }

  /** `_load_token()`: a stored record replaces all three fields and its
      access token, if non-empty, is mirrored into the environment. */
  function Load(s: State): (State, bool) {
    match s.file
    case Present(r) =>
      var s1 := s.(accessToken := r.accessToken, refreshToken := r.refreshToken, expiresAt := r.expiresAt);
      (if Truthy(r.accessToken) then s1.(env := r.accessToken) else s1, true)
    case _ => (s, false)
  }

  /** `logout()`: clears the three fields and the environment variable and
      removes the token file when it exists and can be removed. */
  function Logout(s: State): State {
    s.(accessToken := None, refreshToken := None, expiresAt := None, env := None,
       file := if s.file != Absent && s.writable then Absent else s.file)
  }

  lemma SaveEffects(s: State, g: TokenGrant)
    requires g.accessToken.Some?
    ensures var now := s.clock; var (s', r) := Save(s, g);
      && r == Returned(())
      && s'.accessToken == g.accessToken && s'.refreshToken == g.refreshToken
      && s'.expiresAt == Some(now + g.expiresIn.GetOr(DefaultTokenLifetime))
      && s'.env == g.accessToken
      && (s.writable ==> s'.file == Present(TokenRecord(g.accessToken, g.refreshToken, s'.expiresAt, now)))
      && (!s.writable ==> s'.file == s.file)
      && s'.server == s.server && s'.slept == s.slept && s'.clock == s.clock
  {
  }

  /** Saving a response without an access token raises, and neither the
      environment nor the file is touched. */
  lemma SaveWithoutTokenRaises(s: State, g: TokenGrant)
    requires g.accessToken.None?
    ensures var (s', r) := Save(s, g);
      r == Raised(TypeError) && s'.env == s.env && s'.file == s.file && s'.accessToken == None
  {
  }

  /** A save followed by a load reproduces the saved token triple and
      changes nothing else. */
  lemma SaveThenLoad(s: State, g: TokenGrant)
    requires g.accessToken.Some? && s.writable
    ensures var saved := Save(s, g).0;
      Load(saved) == (saved, true)
  {
  }

  /** Loading a missing or corrupt file reports failure and changes nothing. */
  lemma LoadWithoutRecord(s: State)
    requires !s.file.Present?
    ensures Load(s) == (s, false)
  {
  }

  /** Logging out clears every copy of the token, except a file that cannot
      be removed. */
  lemma LogoutClears(s: State)
    ensures var s' := Logout(s);
      && s'.accessToken.None? && s'.refreshToken.None? && s'.expiresAt.None? && s'.env.None?
      && (s.writable ==> s'.file == Absent)
      && s'.server == s.server
  {
  }

  /** Logging out twice is logging out once. */
  lemma LogoutIdempotent(s: State)
    ensures Logout(Logout(s)) == Logout(s)
  {
  }

  // ---------------------------------------------------------------------
  // The authorization server
  // ---------------------------------------------------------------------

  /** The device endpoint logs the request and gives its next scripted
      reply; an exhausted script reads as a network error. */
  function DevicePost(v: Server, req: DeviceRequest): (r: (Reply<DeviceGrant>, Server))
    ensures r.1.deviceLog == v.deviceLog + [req] && r.1.tokenReplies == v.tokenReplies && r.1.tokenLog == v.tokenLog
    ensures v.deviceReplies == [] ==> r.0 == NetworkError && r.1.deviceReplies == []
    ensures v.deviceReplies != [] ==> r.0 == v.deviceReplies[0] && r.1.deviceReplies == v.deviceReplies[1..]
  {
    if v.deviceReplies == [] then (NetworkError, v.(deviceLog := v.deviceLog + [req]))
    else (v.deviceReplies[0], v.(deviceReplies := v.deviceReplies[1..], deviceLog := v.deviceLog + [req]))
  }

  /** The token endpoint, likewise. */
  function TokenPost(v: Server, req: TokenRequest): (r: (Reply<TokenGrant>, Server))
    ensures r.1.tokenLog == v.tokenLog + [req] && r.1.deviceReplies == v.deviceReplies && r.1.deviceLog == v.deviceLog
    ensures v.tokenReplies == [] ==> r.0 == NetworkError && r.1.tokenReplies == []
    ensures v.tokenReplies != [] ==> r.0 == v.tokenReplies[0] && r.1.tokenReplies == v.tokenReplies[1..]
  {
    if v.tokenReplies == [] then (NetworkError, v.(tokenLog := v.tokenLog + [req]))
    else (v.tokenReplies[0], v.(tokenReplies := v.tokenReplies[1..], tokenLog := v.tokenLog + [req]))
  }

  // ---------------------------------------------------------------------
  // The device authorization grant (`device_flow_auth`)
  // ---------------------------------------------------------------------

  /** Phase 1's reading of the device response, with its defaults. */
  function Session(g: DeviceGrant): (d: DeviceSession)
    ensures g.interval.None? ==> d.interval == DefaultPollInterval
    ensures g.expiresIn.None? ==> d.expiresIn == DefaultDeviceCodeLifetime
    ensures g.interval.Some? ==> d.interval == g.interval.value
    ensures d.deviceCode == g.deviceCode
  {
    DeviceSession(g.deviceCode, g.userCode, g.verificationUri, g.verificationUriComplete,
                  g.expiresIn.GetOr(DefaultDeviceCodeLifetime), g.interval.GetOr(DefaultPollInterval))
  }

  function PollRequest(s: State, d: DeviceSession): TokenRequest {
    TokenRequest(s.clientId, DeviceCodeGrantType, d.deviceCode)
  }

  /** The polling loop of phase 2, one token request per turn: a 200 reply
      mirrors the token into the environment and saves it (a missing token
      raises `TypeError`); `authorization_pending` sleeps `interval` seconds,
      which moves the clock on by as much, and polls again (a negative interval makes `time.sleep` raise
      `ValueError`); every other 400 error, including `slow_down`, every
      other status and every network error ends the flow with `False`. The
      device code's `expires_in` is never consulted. */
  function PollFrom(s: State, d: DeviceSession): (State, Attempt<bool>)
    decreases |s.server.tokenReplies|
  {
    var (reply, server') := TokenPost(s.server, PollRequest(s, d));
    var s1 := s.(server := server');
    match reply
    case Status200(g) =>
      if g.accessToken.None? then (s1, Raised(TypeError))
      else (Save(s1.(env := g.accessToken), g).0, Returned(true))
    case Status400(e) =>
      if e == Some(PendingError) then
        if d.interval < 0 then (s1, Raised(ValueError))
        else PollFrom(Sleep(s1, d.interval), d)
      else (s1, Returned(false))
    case _ => (s1, Returned(false))
  }

  /** `device_flow_auth()`: one device request; anything but a 200 reply
      ends the flow with `False` before any token request; otherwise the
      polling loop decides. */
  function Flow(s: State): (State, Attempt<bool>) {
    var (reply, server') := DevicePost(s.server, DeviceRequest(s.clientId, DeviceScope));
    var s1 := s.(server := server');
    if reply.Status200? then PollFrom(s1, Session(reply.body))
    else (s1, Returned(false))
  }

  /** `time.sleep(seconds)`: the sleep is recorded and the clock moves on. */
  function Sleep(s: State, seconds: int): State {
    s.(slept := s.slept + [seconds], clock := s.clock + seconds)
  }

  /** The seconds that `n` sleeps of `interval` seconds take. */
  function TotalSleep(interval: int, n: nat): int {
    if n == 0 then 0 else interval + TotalSleep(interval, n - 1)
  }

  /** `n` sleeps of `interval` seconds take `n * interval` seconds. */
  lemma {:induction false} TotalSleepIsProduct(interval: int, n: nat)
    ensures TotalSleep(interval, n) == n * interval
  {
    if n > 0 {
      TotalSleepIsProduct(interval, n - 1);
    }
  }

  /** A state after `n` more `authorization_pending` replies. */
  function AfterPending(s: State, d: DeviceSession, n: nat): State
    requires n <= |s.server.tokenReplies|
  {
    s.(slept := s.slept + Repeat(d.interval, n), clock := s.clock + TotalSleep(d.interval, n),
       server := s.server.(tokenReplies := s.server.tokenReplies[n..],
                           tokenLog := s.server.tokenLog + Repeat(PollRequest(s, d), n)))
  }

  /** Waiting for no pending reply changes nothing. */
  lemma AfterNoPending(s: State, d: DeviceSession)
    ensures AfterPending(s, d, 0) == s
  {
    assert s.server.tokenReplies[0..] == s.server.tokenReplies;
    assert s.slept + [] == s.slept && s.server.tokenLog + [] == s.server.tokenLog;
  }

  /** One pending reply, then `n - 1` more, is `n` pending replies. */
  lemma AfterPendingSplit(s: State, d: DeviceSession, n: nat)
    requires 0 < n <= |s.server.tokenReplies|
    ensures AfterPending(AfterPending(s, d, 1), d, n - 1) == AfterPending(s, d, n)
  {
    var s1 := AfterPending(s, d, 1);
    var req := PollRequest(s, d);
    assert PollRequest(s1, d) == req;
    assert s1.server.tokenReplies[n - 1..] == s.server.tokenReplies[n..];
    assert s1.slept + Repeat(d.interval, n - 1) == s.slept + Repeat(d.interval, n) by {
      RepeatPrefix(s.slept, d.interval, n);
    }
    assert s1.server.tokenLog + Repeat(req, n - 1) == s.server.tokenLog + Repeat(req, n) by {
      RepeatPrefix(s.server.tokenLog, req, n);
    }
    assert TotalSleep(d.interval, 1) == d.interval;
  }

  /** A single `authorization_pending` reply: one request, one sleep, and
      polling goes on. */
  lemma PendingStep(s: State, d: DeviceSession)
    requires s.server.tokenReplies != [] && s.server.tokenReplies[0] == Status400(Some(PendingError))
    requires d.interval >= 0
    ensures PollFrom(s, d) == PollFrom(AfterPending(s, d, 1), d)
  {
    var (reply, server') := TokenPost(s.server, PollRequest(s, d));
    assert Repeat(PollRequest(s, d), 1) == [PollRequest(s, d)] && Repeat(d.interval, 1) == [d.interval];
    assert TotalSleep(d.interval, 1) == d.interval;
    assert server'.tokenReplies == s.server.tokenReplies[1..];
    assert Sleep(s.(server := server'), d.interval) == AfterPending(s, d, 1);
  }

  /** Each `authorization_pending` reply costs one request and one sleep of
      `interval` seconds, and the loop carries on as if the pending replies
      had never been scripted, only later on the clock. */
  lemma {:induction false} PollSkipsPending(s: State, d: DeviceSession, n: nat)
    requires n <= |s.server.tokenReplies| && d.interval >= 0
    requires forall i :: 0 <= i < n ==> s.server.tokenReplies[i] == Status400(Some(PendingError))
    ensures PollFrom(s, d) == PollFrom(AfterPending(s, d, n), d)
    decreases n
  {
    if n == 0 {
      AfterNoPending(s, d);
    } else {
      PendingStep(s, d);
      var s1 := AfterPending(s, d, 1);
      forall i | 0 <= i < n - 1
        ensures s1.server.tokenReplies[i] == Status400(Some(PendingError))
      {
        assert s1.server.tokenReplies[i] == s.server.tokenReplies[i + 1];
      }
      PollSkipsPending(s1, d, n - 1);
      AfterPendingSplit(s, d, n);
    }
  }

  /** A 200 reply with a token: one request, success, and the token saved
      at the current time. */
  lemma Granted(t: State, d: DeviceSession, g: TokenGrant, rest: seq<Reply<TokenGrant>>)
    requires t.server.tokenReplies == [Status200(g)] + rest && g.accessToken.Some?
    ensures var (s', r) := PollFrom(t, d);
      && r == Returned(true)
      && s'.server.tokenLog == t.server.tokenLog + [PollRequest(t, d)]
      && s'.server.tokenReplies == rest
      && s'.server.deviceLog == t.server.deviceLog
      && s'.slept == t.slept && s'.clock == t.clock
      && s'.accessToken == g.accessToken && s'.env == g.accessToken
      && s'.refreshToken == g.refreshToken
      && s'.expiresAt == Some(t.clock + g.expiresIn.GetOr(DefaultTokenLifetime))
      && (t.writable ==> s'.file == Present(TokenRecord(g.accessToken, g.refreshToken, s'.expiresAt, t.clock)))
  {
  }

  /** N pending replies and then a token: N + 1 token requests, N sleeps of
      `interval` seconds, success, and the token saved and in the
      environment, with its expiry and timestamp read after the sleeps. */
  lemma PendingThenGranted(s: State, d: DeviceSession, n: nat, g: TokenGrant, rest: seq<Reply<TokenGrant>>)
    requires s.server.tokenReplies == Repeat(Status400(Some(PendingError)), n) + [Status200(g)] + rest
    requires d.interval >= 0 && g.accessToken.Some?
    ensures var (s', r) := PollFrom(s, d);
      var savedAt := s.clock + TotalSleep(d.interval, n);
      && r == Returned(true)
      && s'.server.tokenLog == s.server.tokenLog + Repeat(PollRequest(s, d), n + 1)
      && s'.server.tokenReplies == rest
      && s'.server.deviceLog == s.server.deviceLog
      && s'.slept == s.slept + Repeat(d.interval, n)
      && s'.clock == savedAt
      && s'.accessToken == g.accessToken && s'.env == g.accessToken
      && s'.refreshToken == g.refreshToken
      && s'.expiresAt == Some(savedAt + g.expiresIn.GetOr(DefaultTokenLifetime))
      && (s.writable ==> s'.file == Present(TokenRecord(g.accessToken, g.refreshToken, s'.expiresAt, savedAt)))
  {
    var replies := s.server.tokenReplies;
    forall i | 0 <= i < n ensures replies[i] == Status400(Some(PendingError)) {
      RepeatAll<Reply<TokenGrant>>(Status400(Some(PendingError)), n, i);
    }
    PollSkipsPending(s, d, n);
    var t := AfterPending(s, d, n);
    assert t.server.tokenReplies == [Status200(g)] + rest;
    Granted(t, d, g, rest);
    assert PollRequest(t, d) == PollRequest(s, d);
    assert Repeat(PollRequest(s, d), n + 1) == Repeat(PollRequest(s, d), n) + [PollRequest(s, d)] by {
      RepeatSnoc(PollRequest(s, d), n);
    }
  }

  /** The first reply that is neither pending nor a token ends polling with
      `False` after exactly one more request; nothing is saved. */
  lemma PollStopsOnTerminal(s: State, d: DeviceSession)
    requires s.server.tokenReplies == [] || s.server.tokenReplies[0] == NetworkError
          || s.server.tokenReplies[0] == OtherStatus
          || (s.server.tokenReplies[0].Status400? && s.server.tokenReplies[0].error != Some(PendingError))
    ensures PollFrom(s, d) ==
      (s.(server := s.server.(tokenReplies := if s.server.tokenReplies == [] then [] else s.server.tokenReplies[1..],
                              tokenLog := s.server.tokenLog + [PollRequest(s, d)])),
       Returned(false))
  {
  }

  /** `slow_down` aborts the flow like any other error. */
  lemma SlowDownIsTerminal(s: State, d: DeviceSession)
    requires s.server.tokenReplies != [] && s.server.tokenReplies[0] == Status400(Some("slow_down"))
    ensures PollFrom(s, d).1 == Returned(false)
  {
  }

  /** A rejected or failed device request ends the flow with `False` after
      one device request and no token request. */
  lemma DeviceRequestRejected(s: State)
    requires s.server.deviceReplies == [] || !s.server.deviceReplies[0].Status200?
    ensures var (s', r) := Flow(s);
      && r == Returned(false)
      && s' == s.(server := s.server.(deviceReplies := if s.server.deviceReplies == [] then [] else s.server.deviceReplies[1..],
                                      deviceLog := s.server.deviceLog + [DeviceRequest(s.clientId, DeviceScope)]))
  {
  }

  /** Polling never sends a device request and never leaves the token
      fields and the environment out of step after a success. */
  lemma {:induction false} PollInvariants(s: State, d: DeviceSession)
    ensures var (s', r) := PollFrom(s, d);
      && s'.server.deviceLog == s.server.deviceLog
      && s'.server.deviceReplies == s.server.deviceReplies
      && s'.clientId == s.clientId
      && (r == Returned(true) ==> s'.accessToken.Some? && s'.env == s'.accessToken)
      && (r != Returned(true) ==> s'.accessToken == s.accessToken && s'.env == s.env && s'.file == s.file)
    decreases |s.server.tokenReplies|
  {
    var (reply, server') := TokenPost(s.server, PollRequest(s, d));
    var s1 := s.(server := server');
    if reply.Status400? && reply.error == Some(PendingError) && d.interval >= 0 {
      PollInvariants(Sleep(s1, d.interval), d);
    }
  }

  /** Every flow sends exactly one device request. */
  lemma FlowSendsOneDeviceRequest(s: State)
    ensures |Flow(s).0.server.deviceLog| == |s.server.deviceLog| + 1
  {
    var (reply, server') := DevicePost(s.server, DeviceRequest(s.clientId, DeviceScope));
    if reply.Status200? {
      PollInvariants(s.(server := server'), Session(reply.body));
    }
  }

  // ---------------------------------------------------------------------
  // Token resolution (`get_access_token` and what is built on it)
  // ---------------------------------------------------------------------

  /** `get_access_token()`: (1) a non-empty environment token is returned
      verbatim, without reading the file or checking expiry; (2) otherwise
      the file is loaded and a usable token returned; (3) otherwise the
      device flow runs and decides. */
  function GetToken(s: State): (State, Attempt<Option<string>>) {
    if Truthy(s.env) then (s.(accessToken := s.env), Returned(s.env))
    else
      var s1 := Load(s).0;
      if Usable(s1.accessToken, s1.expiresAt, s1.clock) then (s1, Returned(s1.accessToken))
      else
        var (s2, r) := Flow(s1);
        match r
        case Raised(e) => (s2, Raised(e))
        case Returned(ok) => (s2, Returned(if ok then s2.accessToken else None))
  }

  /** The two request headers built from a token. */
  function BearerHeaders(token: string): (h: map<string, string>)
    ensures h.Keys == {"Authorization", "Content-Type"}
    ensures h["Authorization"] == "Bearer " + token && h["Content-Type"] == "application/json"
  {
    map["Authorization" := "Bearer " + token, "Content-Type" := "application/json"]
  }

  /** `get_auth_headers()`: raises `ValueError` when no non-empty token is
      obtained. */
  function GetHeaders(s: State): (State, Attempt<map<string, string>>) {
    var (s1, r) := GetToken(s);
    match r
    case Raised(e) => (s1, Raised(e))
    case Returned(t) => (s1, if Truthy(t) then Returned(BearerHeaders(t.value)) else Raised(ValueError))
  }

  /** `is_authenticated()`: whether `get_access_token()` gave a token; it
      runs the device flow when needed. */
  function IsAuthenticated(s: State): (State, Attempt<bool>) {
    var (s1, r) := GetToken(s);
    match r
    case Raised(e) => (s1, Raised(e))
    case Returned(t) => (s1, Returned(t.Some?))
  }

  /** A new `CybershuttleAuth(client_id=clientId)`: access token read from
      the environment, no refresh token and no expiry. */
  function Fresh(s: State, clientId: string): State {
    s.(clientId := clientId, accessToken := s.env, refreshToken := None, expiresAt := None)
  }

  /** `authenticate()`: a new helper; when `is_authenticated()` is false the
      device flow is run once more, and a second failure raises `ValueError`. */
  function Authenticate(s: State): (State, Attempt<()>) {
    var (s1, a) := IsAuthenticated(Fresh(s, DefaultClientId));
    match a
    case Raised(e) => (s1, Raised(e))
    case Returned(yes) =>
      if yes then (s1, Returned(()))
      else
        var (s2, f) := Flow(s1);
        match f
        case Raised(e) => (s2, Raised(e))
        case Returned(ok) => (s2, if ok then Returned(()) else Raised(ValueError))
  }

  /** Resolution step 1: a non-empty environment token wins, even over a
      different usable stored token, and nothing is read or requested. */
  lemma EnvOverrideWins(s: State)
    requires Truthy(s.env)
    ensures GetToken(s) == (s.(accessToken := s.env), Returned(s.env))
  {
  }

  /** Resolution step 2: with no environment token, a usable stored token is
      returned without any request. */
  lemma StoredTokenServed(s: State)
    requires !Truthy(s.env) && s.file.Present?
    requires Usable(s.file.record.accessToken, s.file.record.expiresAt, s.clock)
    ensures var (s', r) := GetToken(s);
      r == Returned(s.file.record.accessToken) && s'.server == s.server
      && s'.env == s.file.record.accessToken
  {
  }

  /** Resolution step 2 in general: with no environment token, whatever
      token the helper holds after loading, from the file or already in
      memory when there is no record, is returned without any request
      once it passes the validity check. */
  lemma UsableTokenServed(s: State)
    requires !Truthy(s.env) && Usable(Load(s).0.accessToken, Load(s).0.expiresAt, s.clock)
    ensures GetToken(s) == (Load(s).0, Returned(Load(s).0.accessToken))
    ensures !s.file.Present? ==> GetToken(s) == (s, Returned(s.accessToken))
  {
  }

  /** Resolution step 3: otherwise the device flow decides the result. */
  lemma FlowDecides(s: State)
    requires !Truthy(s.env) && !Usable(Load(s).0.accessToken, Load(s).0.expiresAt, s.clock)
    ensures var (s', r) := GetToken(s);
      var (f, ok) := Flow(Load(s).0);
      && s' == f
      && (ok == Returned(true) ==> r == Returned(f.accessToken) && f.accessToken.Some?)
      && (ok == Returned(false) ==> r == Returned(None))
      && (ok.Raised? ==> r == Raised(ok.exception))
  {
    FlowInvariants(Load(s).0);
  }

  /** A whole flow keeps the device side's promises of `PollInvariants`:
      a success leaves the token in the environment, and anything else
      leaves token, environment and file as they were. */
  lemma FlowInvariants(s: State)
    ensures var (s', r) := Flow(s);
      && (r == Returned(true) ==> s'.accessToken.Some? && s'.env == s'.accessToken)
      && (r != Returned(true) ==> s'.accessToken == s.accessToken && s'.env == s.env && s'.file == s.file)
  {
    var (reply, server') := DevicePost(s.server, DeviceRequest(s.clientId, DeviceScope));
    if reply.Status200? {
      PollInvariants(s.(server := server'), Session(reply.body));
    }
  }

  /** The helper's own non-empty token is the one in the environment. */
  predicate Mirrored(s: State) {
    Truthy(s.accessToken) ==> s.env == s.accessToken
  }

  /** A new helper is mirrored, and saving and logging out make any state
      mirrored, whatever came before. */
  lemma MirroredEstablished(s: State, g: TokenGrant, clientId: string)
    ensures Mirrored(Fresh(s, clientId)) && Mirrored(Save(s, g).0) && Mirrored(Logout(s))
  {
  }

  /** Every other operation keeps a mirrored state mirrored. */
  lemma MirroredKept(s: State)
    requires Mirrored(s)
    ensures Mirrored(Load(s).0) && Mirrored(Flow(s).0)
    ensures Mirrored(GetToken(s).0) && Mirrored(GetHeaders(s).0) && Mirrored(IsAuthenticated(s).0)
  {
    FlowInvariants(s);
    FlowInvariants(Load(s).0);
  }

  /** So `authenticate()`, which starts from a new helper, leaves a
      mirrored state. */
  lemma AuthenticateMirrored(s: State)
    ensures Mirrored(Authenticate(s).0)
  {
    var s0 := Fresh(s, DefaultClientId);
    MirroredKept(s0);
    FlowInvariants(IsAuthenticated(s0).0);
  }

  /** Whatever branch produced it, a non-empty token that `get_access_token`
      returns is left in the environment. */
  lemma ReturnedTokenIsInEnv(s: State)
    requires Mirrored(s)
    ensures var (s', r) := GetToken(s);
      r.Returned? && Truthy(r.value) ==> s'.env == r.value
  {
    FlowInvariants(Load(s).0);
  }

  /** Hence every later call, at any later time, returns that same token
      through the environment override, with no request and even after
      the token has expired. */
  lemma LaterCallsUseEnv(s: State, later: int)
    requires Mirrored(s)
    ensures var (s1, r) := GetToken(s);
      r.Returned? && Truthy(r.value) ==>
        GetToken(s1.(clock := later)) == (s1.(clock := later, accessToken := r.value), r)
  {
    ReturnedTokenIsInEnv(s);
  }

  /** The same for a helper that has just been created, whatever state the
      process and the file are in. */
  lemma NewHelperLaterCallsUseEnv(s: State, clientId: string, later: int)
    ensures var (s1, r) := GetToken(Fresh(s, clientId));
      r.Returned? && Truthy(r.value) ==>
        GetToken(s1.(clock := later)) == (s1.(clock := later, accessToken := r.value), r)
  {
    LaterCallsUseEnv(Fresh(s, clientId), later);
  }

  /** A stored but expired token is mirrored into the environment by the
      load; if the device flow then fails, the call returns None, yet the
      next call returns the expired token through the override. */
  lemma ExpiredTokenServedAfterFailedFlow(s: State, later: int)
    requires !Truthy(s.env) && s.file.Present? && Truthy(s.file.record.accessToken)
    requires !Usable(s.file.record.accessToken, s.file.record.expiresAt, s.clock)
    requires Flow(Load(s).0).1 == Returned(false)
    ensures var (s1, r1) := GetToken(s);
      && r1 == Returned(None)
      && GetToken(s1.(clock := later)).1 == Returned(s.file.record.accessToken)
  {
    FlowInvariants(Load(s).0);
  }

  /** `get_auth_headers` raises exactly when `get_access_token` raises or
      yields no non-empty token, and otherwise returns exactly the bearer
      and content-type headers. */
  lemma HeadersFollowToken(s: State)
    ensures var (s1, h) := GetHeaders(s);
      var (s2, t) := GetToken(s);
      && s1 == s2
      && (h.Raised? <==> t.Raised? || !Truthy(t.value))
      && (h.Returned? ==> h.value == map["Authorization" := "Bearer " + t.value.value,
                                          "Content-Type" := "application/json"])
  {
  }

  /** `is_authenticated()` is `get_access_token() is not None`. */
  lemma IsAuthenticatedFollowsToken(s: State)
    ensures var (s1, a) := IsAuthenticated(s);
      var (s2, t) := GetToken(s);
      s1 == s2 && (a.Returned? <==> t.Returned?) && (a.Returned? ==> a.value == t.value.Some?)
  {
  }

  /** With no environment token and no usable stored token, `authenticate()`
      whose first device flow fails runs a second one: two device requests. */
  lemma AuthenticateRetriesFlow(s: State)
    requires !Truthy(s.env)
    requires var s0 := Load(Fresh(s, DefaultClientId)).0; !Usable(s0.accessToken, s0.expiresAt, s0.clock)
    requires Flow(Load(Fresh(s, DefaultClientId)).0).1 == Returned(false)
    ensures var first := Flow(Load(Fresh(s, DefaultClientId)).0).0;
      && Authenticate(s).0 == Flow(first).0
      && (Authenticate(s).1 == Returned(()) <==> Flow(first).1 == Returned(true))
      && (Flow(first).1 == Returned(false) ==> Authenticate(s).1 == Raised(ValueError))
      && |Authenticate(s).0.server.deviceLog| == |s.server.deviceLog| + 2
  {
    var s0 := Load(Fresh(s, DefaultClientId)).0;
    FlowSendsOneDeviceRequest(s0);
    FlowSendsOneDeviceRequest(Flow(s0).0);
  }

  /** The end-to-end scenario at time `now`: no file and no environment
      token; the device endpoint gives `D1`/`U1` with a one-second
      interval; the token endpoint answers pending once and then `T1`. The
      call returns `T1` after two token requests and one sleep, the token
      expires an hour after the sleep ended, and a second call at any later
      time returns `T1` without any further request. */
  lemma EndToEnd(clientId: string, now: int, later: int)
    ensures
      var grant := DeviceGrant(Some("D1"), Some("U1"), Some("https://verify"), None, None, Some(1));
      var token := TokenGrant(Some("T1"), None, Some(3600));
      var s := State(clientId, None, None, None, None, Absent, true, [], now,
                     Server([Status200(grant)], [Status400(Some(PendingError)), Status200(token)], [], []));
      var (s1, r1) := GetToken(s);
      && r1 == Returned(Some("T1"))
      && |s1.server.tokenLog| == 2 && |s1.server.deviceLog| == 1
      && s1.slept == [1] && s1.clock == now + 1
      && s1.expiresAt == Some(now + 1 + 3600)
      && GetToken(s1.(clock := later)) == (s1.(clock := later), Returned(Some("T1")))
  {
    var grant := DeviceGrant(Some("D1"), Some("U1"), Some("https://verify"), None, None, Some(1));
    var token := TokenGrant(Some("T1"), None, Some(3600));
    var s := State(clientId, None, None, None, None, Absent, true, [], now,
                   Server([Status200(grant)], [Status400(Some(PendingError)), Status200(token)], [], []));
    var s0 := Load(s).0;
    assert s0 == s;
    var (d, server') := DevicePost(s.server, DeviceRequest(clientId, DeviceScope));
    var p := s.(server := server');
    assert Flow(s) == PollFrom(p, Session(grant));
    PendingThenGranted(p, Session(grant), 1, token, []);
    assert Repeat(1, 1) == [1];
  }
}

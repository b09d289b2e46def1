/** The `CybershuttleAuth` helper as the object the source has: it updates
    its own token fields, the process environment and the token file, and
    talks to the authorization server. Every method is proved to update the
    whole of what it touches exactly as the matching function of module
    `AuthModel` says, so the lemmas proved there hold of these methods. */
module Auth {
  import opened Wrappers
  import opened Seqs
  import opened AuthModel

  /** The process and the file system the helper runs on: the
      `CS_ACCESS_TOKEN` variable, the token file, whether the token file's
      directory accepts writes and removals, the seconds slept, and the
      clock `time.time()` reads. */
  class Host {
    var env: Option<string>
    var tokenFile: TokenFile
    var writable: bool
    var slept: seq<int>
    var clock: int

    constructor (env: Option<string>, tokenFile: TokenFile, writable: bool, clock: int)
      ensures this.env == env && this.tokenFile == tokenFile && this.writable == writable
      ensures slept == [] && this.clock == clock
    {
      this.env := env;
      this.tokenFile := tokenFile;
      this.writable := writable;
      slept := [];
      this.clock := clock;
    }

    /** `time.sleep(seconds)`. */
    method Sleep(seconds: int)
      modifies this
      ensures slept == old(slept) + [seconds] && clock == old(clock) + seconds
      ensures env == old(env) && tokenFile == old(tokenFile) && writable == old(writable)
    {
      slept := slept + [seconds];
      clock := clock + seconds;
    }
  }

  /** The authorization server, answering from scripted replies. */
  class AuthServer {
    var deviceReplies: seq<Reply<DeviceGrant>>
    var tokenReplies: seq<Reply<TokenGrant>>
    var deviceLog: seq<DeviceRequest>
    var tokenLog: seq<TokenRequest>

    constructor (deviceReplies: seq<Reply<DeviceGrant>>, tokenReplies: seq<Reply<TokenGrant>>)
      ensures Model() == Server(deviceReplies, tokenReplies, [], [])
    {
      this.deviceReplies := deviceReplies;
      this.tokenReplies := tokenReplies;
      deviceLog := [];
      tokenLog := [];
    }

    function Model(): Server
      reads this
    {
      Server(deviceReplies, tokenReplies, deviceLog, tokenLog)
    }

    /** A POST to the device endpoint. */
    method PostDevice(req: DeviceRequest) returns (reply: Reply<DeviceGrant>)
      modifies this
      ensures (reply, Model()) == DevicePost(old(Model()), req)
    {
      deviceLog := deviceLog + [req];
      if deviceReplies == [] {
        reply := NetworkError;
      } else {
        reply := deviceReplies[0];
        deviceReplies := deviceReplies[1..];
      }
    }

    /** A POST to the token endpoint. */
    method PostToken(req: TokenRequest) returns (reply: Reply<TokenGrant>)
      modifies this
      ensures (reply, Model()) == TokenPost(old(Model()), req)
    {
      tokenLog := tokenLog + [req];
      if tokenReplies == [] {
        reply := NetworkError;
      } else {
        reply := tokenReplies[0];
        tokenReplies := tokenReplies[1..];
      }
    }
  }

  class CybershuttleAuth {
    const clientId: string
    var accessToken: Option<string>
    var refreshToken: Option<string>
    var tokenExpiresAt: Option<int>
    const host: Host
    const server: AuthServer

    /** `CybershuttleAuth(client_id=clientId)`: the access token starts as
        the environment's. */
    constructor (host: Host, server: AuthServer, clientId: string)
      ensures this.host == host && this.server == server
      ensures Snapshot() == Fresh(old(Snapshot0(host, server)), clientId)
    {
      this.clientId := clientId;
      accessToken := host.env;
      refreshToken := None;
      tokenExpiresAt := None;
      this.host := host;
      this.server := server;
    }

    /** Everything the helper reads or changes, as one value. */
    function Snapshot(): State
      reads this, host, server
    {
      State(clientId, accessToken, refreshToken, tokenExpiresAt,
            host.env, host.tokenFile, host.writable, host.slept, host.clock, server.Model())
    }

    /** `_is_token_valid()`. */
    predicate IsTokenValid()
      reads this, host
    {
      Usable(accessToken, tokenExpiresAt, host.clock)
    }

    /** `_save_token(token_data)`. */
    method SaveToken(tokenData: TokenGrant) returns (r: Attempt<()>)
      modifies this, host
      ensures (Snapshot(), r) == Save(old(Snapshot()), tokenData)
    {
      var now := host.clock;
      accessToken := tokenData.accessToken;
      refreshToken := tokenData.refreshToken;
      var expiresIn := tokenData.expiresIn.GetOr(DefaultTokenLifetime);
      tokenExpiresAt := Some(now + expiresIn);
      if accessToken.None? {
        return Raised(TypeError);
      }
      host.env := accessToken;
      var info := TokenRecord(accessToken, refreshToken, tokenExpiresAt, now);
      if host.writable {
        host.tokenFile := Present(info);
      }
      return Returned(());
    }

    /** `_load_token()`. */
    method LoadToken() returns (loaded: bool)
      modifies this, host
      ensures (Snapshot(), loaded) == Load(old(Snapshot()))
    {
      if !host.tokenFile.Present? {
        return false;
      }
      var info := host.tokenFile.record;
      accessToken := info.accessToken;
      refreshToken := info.refreshToken;
      tokenExpiresAt := info.expiresAt;
      if Truthy(accessToken) {
        host.env := accessToken;
      }
      return true;
    }

    /** `device_flow_auth()`: the device request, then the polling loop.
        The source's `while True` is bounded here by the reply script: an
        exhausted script answers with a network error. */
    method DeviceFlowAuth() returns (r: Attempt<bool>)
      modifies this, host, server
      ensures (Snapshot(), r) == Flow(old(Snapshot()))
    {
      var deviceReply := server.PostDevice(DeviceRequest(clientId, DeviceScope));
      if !deviceReply.Status200? {
        return Returned(false);
      }
      var session := Session(deviceReply.body);
      ghost var start := Snapshot();
      while true
        invariant PollFrom(Snapshot(), session) == PollFrom(start, session)
        decreases |server.tokenReplies|
      {
        var reply := server.PostToken(TokenRequest(clientId, DeviceCodeGrantType, session.deviceCode));
        match reply {
          case Status200(tokenResponse) =>
            if tokenResponse.accessToken.None? {
              return Raised(TypeError);
            }
            host.env := tokenResponse.accessToken;
            var _ := SaveToken(tokenResponse);
            return Returned(true);
          case Status400(error) =>
            if error != Some(PendingError) {
              return Returned(false);
            }
            if session.interval < 0 {
              return Raised(ValueError);
            }
            host.Sleep(session.interval);
          case OtherStatus =>
            return Returned(false);
          case NetworkError =>
            return Returned(false);
        }
      }
    }

    /** `get_access_token()`. */
    method GetAccessToken() returns (r: Attempt<Option<string>>)
      modifies this, host, server
      ensures (Snapshot(), r) == GetToken(old(Snapshot()))
    {
      var envToken := host.env;
      if Truthy(envToken) {
        accessToken := envToken;
        return Returned(envToken);
      }
      var _ := LoadToken();
      if IsTokenValid() {
        return Returned(accessToken);
      }
      var flow := DeviceFlowAuth();
      match flow {
        case Raised(e) => return Raised(e);
        case Returned(ok) => return Returned(if ok then accessToken else None);
      }
    }

    /** `get_auth_headers()`. */
    method GetAuthHeaders() returns (r: Attempt<map<string, string>>)
      modifies this, host, server
      ensures (Snapshot(), r) == GetHeaders(old(Snapshot()))
    {
      var token := GetAccessToken();
      match token {
        case Raised(e) => return Raised(e);
        case Returned(t) =>
          if !Truthy(t) {
            return Raised(ValueError);
          }
          return Returned(map["Authorization" := "Bearer " + t.value, "Content-Type" := "application/json"]);
      }
    }

    /** `is_authenticated()`. */
    method IsAuthenticated() returns (r: Attempt<bool>)
      modifies this, host, server
      ensures (Snapshot(), r) == AuthModel.IsAuthenticated(old(Snapshot()))
    {
      var token := GetAccessToken();
      match token {
        case Raised(e) => return Raised(e);
        case Returned(t) => return Returned(t.Some?);
      }
    }

    /** `logout()`: never raises. */
    method Logout()
      modifies this, host
      ensures Snapshot() == AuthModel.Logout(old(Snapshot()))
    {
      accessToken := None;
      refreshToken := None;
      tokenExpiresAt := None;
      host.env := None;
      if host.tokenFile != Absent && host.writable {
        host.tokenFile := Absent;
      }
    }
  }

  /** The part of a `State` that exists before any helper is created; the
      helper's own fields are filled in by `Fresh`. */
  function Snapshot0(host: Host, server: AuthServer): State
    reads host, server
  {
    State(DefaultClientId, None, None, None, host.env, host.tokenFile, host.writable, host.slept, host.clock, server.Model())
  }

  /** `authenticate()`: returns the helper, or raises. */
  method Authenticate(host: Host, server: AuthServer) returns (auth: CybershuttleAuth, r: Attempt<()>)
    modifies host, server
    ensures fresh(auth) && auth.host == host && auth.server == server
    ensures (auth.Snapshot(), r) == AuthModel.Authenticate(old(Snapshot0(host, server)))
  {
    auth := new CybershuttleAuth(host, server, DefaultClientId);
    var authenticated := auth.IsAuthenticated();
    match authenticated {
      case Raised(e) => r := Raised(e);
      case Returned(yes) =>
        if yes {
          r := Returned(());
        } else {
          var ok := auth.DeviceFlowAuth();
          match ok {
            case Raised(e) => r := Raised(e);
            case Returned(success) => r := if success then Returned(()) else Raised(ValueError);
          }
        }
    }
  }
}

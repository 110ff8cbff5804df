/**
 * The token decisions of ensureAccessToken and refreshAccessToken. The HTTP
 * exchanges are inputs: what the probe request and the refresh grant returned.
 */
module Tokens {
  import opened Wrappers
  import opened Strings

  /** The four settings read from the environment file. */
  datatype Config = Config(clientId: string, clientSecret: string, refreshToken: string, accessToken: string)

  /** The access and refresh token pair the program works with. */
  datatype Tokens = Tokens(access: string, refresh: string)

  /** The decoded OAuth response; token_type is decoded but never used. */
  datatype Grant = Grant(accessToken: string, refreshToken: string, expiresIn: int)

  datatype AuthError =
    | MissingCredentials                    // a client id, secret or refresh token that is blank
    | RequestBuildFailed
    | TransportFailed
    | Rejected(status: int, body: string)   // a non-200 answer, with its whole body
    | UnmarshalFailed

  /** What the refresh_token grant request came back with. */
  datatype RefreshAnswer =
    | RefreshBuildError
    | RefreshTransportError
    | RefreshReply(status: int, body: string, decoded: Option<Grant>)

  /** What the one-item probe request with the cached token came back with. */
  datatype ProbeAnswer = ProbeTransportError | ProbeReply(status: int)

  predicate HasCredentials(cfg: Config) {
    !IsBlank(cfg.clientId) && !IsBlank(cfg.clientSecret) && !IsBlank(cfg.refreshToken)
  }

  /**
   * refreshAccessToken. Blank credentials fail before any request is built, so
   * the answer is then never looked at; otherwise only a 200 whose body decodes
   * yields tokens, and those are the ones the grant carries.
   */
  function RefreshAccessToken(cfg: Config, answer: RefreshAnswer): (r: Result<Tokens, AuthError>)
    ensures r == Failure(MissingCredentials) <==> !HasCredentials(cfg)
    ensures r.Success? <==>
              HasCredentials(cfg) && answer.RefreshReply? && answer.status == 200 && answer.decoded.Some?
    ensures r.Success? ==>
              r.value == Tokens(answer.decoded.value.accessToken, answer.decoded.value.refreshToken)
    ensures HasCredentials(cfg) ==> (r == Failure(RequestBuildFailed) <==> answer.RefreshBuildError?)
    ensures HasCredentials(cfg) ==> (r == Failure(TransportFailed) <==> answer.RefreshTransportError?)
    ensures r.Failure? && r.error.Rejected? <==>
              HasCredentials(cfg) && answer.RefreshReply? && answer.status != 200
    ensures r.Failure? && r.error.Rejected? ==> r.error == Rejected(answer.status, answer.body)
    ensures r == Failure(UnmarshalFailed) <==>
              HasCredentials(cfg) && answer.RefreshReply? && answer.status == 200 && answer.decoded.None?
  {
    if TrimSpace(cfg.clientId) == "" || TrimSpace(cfg.clientSecret) == "" || TrimSpace(cfg.refreshToken) == "" then
      Failure(MissingCredentials)
    else
      match answer
      case RefreshBuildError => Failure(RequestBuildFailed)
      case RefreshTransportError => Failure(TransportFailed)
      case RefreshReply(status, body, decoded) =>
        if status != 200 then Failure(Rejected(status, body))
        else if decoded.None? then Failure(UnmarshalFailed)
        else Success(Tokens(decoded.value.accessToken, decoded.value.refreshToken))
  }

  /** ensureAccessToken's result, and whether it went through refreshAccessToken. */
  datatype Ensured = Ensured(result: Result<Tokens, AuthError>, refreshed: bool)

  /**
   * ensureAccessToken. A blank cached token is refreshed without probing; else the
   * probe decides: a failed connection or a 401 leads to a refresh, any other
   * status keeps the configured pair unchanged.
   */
  function EnsureAccessToken(cfg: Config, probe: ProbeAnswer, answer: RefreshAnswer): (e: Ensured)
    ensures e.refreshed <==> IsBlank(cfg.accessToken) || probe.ProbeTransportError? || probe.status == 401
    ensures e.refreshed ==> e.result == RefreshAccessToken(cfg, answer)
    ensures !e.refreshed ==> e.result == Success(Tokens(cfg.accessToken, cfg.refreshToken))
  {
    if TrimSpace(cfg.accessToken) == "" then Ensured(RefreshAccessToken(cfg, answer), true)
    else if probe.ProbeTransportError? then Ensured(RefreshAccessToken(cfg, answer), true)
    else if probe.status == 401 then Ensured(RefreshAccessToken(cfg, answer), true)
    else Ensured(Success(Tokens(cfg.accessToken, cfg.refreshToken)), false)
  }

  /** With no cached token the probe's outcome plays no part. */
  lemma EnsureBlankSkipsProbe(cfg: Config, p1: ProbeAnswer, p2: ProbeAnswer, answer: RefreshAnswer)
    requires IsBlank(cfg.accessToken)
    ensures EnsureAccessToken(cfg, p1, answer) == EnsureAccessToken(cfg, p2, answer)
  {
  }
}

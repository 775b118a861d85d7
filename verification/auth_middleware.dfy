/**
  The administrator guard (middleware/auth_middleware.go): HTTP Basic
  credentials or an API key, chosen per request. The API key is compared with
  the administrator password, not with a separate key setting.
 */
module AuthMiddleware {
  import opened Common
  import opened Text
  import opened Config

  /** The parts of a request the guard reads. */
  datatype Request = Request(
    apiKeyHeader: string,                   // the `X-API-Key` header, "" when absent
    rawQuery: string,                       // the query string as sent
    apiKeyParam: string,                    // the decoded `api_key` query parameter, "" when absent
    basic: Option<(string, string)>)        // the Basic credentials, when the header parses

  /** Either the wrapped handler runs, or the request ends with an error. */
  datatype Outcome = Pass | Reject(failure: Failure)

  const AdminNotConfigured: Failure := Failure(StatusServiceUnavailable, "管理员账号未配置")
  const Unauthorized: Failure := Failure(StatusUnauthorized, "未授权访问")
  const InvalidApiKey: Failure := Failure(StatusUnauthorized, "无效的API Key")

  /**
    `BasicAuth`: unusable (503) while either administrator setting is empty,
    whatever the request; otherwise the credentials must be present and equal
    to both settings.
   */
  function BasicAuth(cfg: AppConfig, req: Request): (o: Outcome)
    ensures cfg.username == "" || cfg.password == "" ==> o == Reject(AdminNotConfigured)
    ensures o == Pass <==> && cfg.username != "" && cfg.password != ""
                           && req.basic == Some((cfg.username, cfg.password))
    ensures o != Pass && cfg.username != "" && cfg.password != "" ==> o == Reject(Unauthorized)
  {
    if cfg.username == "" || cfg.password == "" then Reject(AdminNotConfigured)
    else
      match req.basic
      case None => Reject(Unauthorized)
      case Some((user, pass)) =>
        if user != cfg.username || pass != cfg.password then Reject(Unauthorized) else Pass
  }

  /** The key a request offers: the header, or the query parameter when the header is empty. */
  function ApiKeyOf(req: Request): (key: string)
    ensures req.apiKeyHeader != "" ==> key == req.apiKeyHeader
    ensures req.apiKeyHeader == "" ==> key == req.apiKeyParam
  {
    if req.apiKeyHeader != "" then req.apiKeyHeader else req.apiKeyParam
  }

  /** `APIKeyAuth`: the offered key must be non-empty and equal to the administrator password. */
  function APIKeyAuth(cfg: AppConfig, req: Request): (o: Outcome)
    ensures o == Pass <==> ApiKeyOf(req) != "" && ApiKeyOf(req) == cfg.password
    ensures o != Pass ==> o == Reject(InvalidApiKey)
  {
    var key := ApiKeyOf(req);
    if key == "" || key != cfg.password then Reject(InvalidApiKey) else Pass
  }

  /** `RequireAuth` takes the API-key path when the header is set or the raw query mentions "api_key=". */
  predicate UsesApiKey(req: Request) {
    req.apiKeyHeader != "" || Contains(req.rawQuery, "api_key=")
  }

  /**
    `RequireAuth`: the request passes exactly when the chosen method accepts
    it; the other method is never consulted.
   */
  function RequireAuth(cfg: AppConfig, req: Request): (o: Outcome)
    ensures UsesApiKey(req) ==> o == APIKeyAuth(cfg, req)
    ensures !UsesApiKey(req) ==> o == BasicAuth(cfg, req)
    ensures o == Pass <==>
              if UsesApiKey(req) then ApiKeyOf(req) != "" && ApiKeyOf(req) == cfg.password
              else cfg.username != "" && cfg.password != "" && req.basic == Some((cfg.username, cfg.password))
  {
    if UsesApiKey(req) then APIKeyAuth(cfg, req) else BasicAuth(cfg, req)
  }

  /** With no administrator password configured, no request passes by either method. */
  lemma EmptyPasswordLocksOut(cfg: AppConfig, req: Request)
    requires cfg.password == ""
    ensures RequireAuth(cfg, req) != Pass
  {
  }

  /**
    A query that merely contains "api_key=" (inside another parameter's name
    or value) selects the API-key path; with no key offered the request is
    refused, even when it carries the correct Basic credentials.
   */
  lemma MentionOfApiKeyOverridesBasic(cfg: AppConfig, req: Request, i: int)
    requires OccursAt(req.rawQuery, "api_key=", i)
    requires req.apiKeyHeader == "" && req.apiKeyParam == ""
    ensures RequireAuth(cfg, req) == Reject(InvalidApiKey)
  {
    ContainsIff(req.rawQuery, "api_key=");
  }
}

/**
  Third-party login (api/oauth.go): the callback URL the login redirect
  announces, the identity each provider's callback derives from the
  provider's answer, the find-or-create of the account keyed by (username,
  provider), and where the browser goes afterwards.

  The exchanges with the providers are not modelled: what the provider
  answered (an email, a login, an openid) is an input.
 */
module OAuth {
  import opened Common
  import opened Text
  import opened Models
  import opened Store
  import opened Config
  import UserApi

  datatype Provider = Google | GitHub | Wechat

  /** The configured client of a provider (for WeChat, `clientId` holds the app id). */
  function ClientOf(cfg: AppConfig, p: Provider): OAuthClient {
    match p
    case Google => cfg.googleOAuth
    case GitHub => cfg.gitHubOAuth
    case Wechat => cfg.wechatOAuth
  }

  function NotConfigured(p: Provider): Failure {
    match p
    case Google => Failure(StatusBadRequest, "未配置 Google 登录参数")
    case GitHub => Failure(StatusBadRequest, "未配置 GitHub 登录参数")
    case Wechat => Failure(StatusBadRequest, "未配置微信登录参数")
  }

  const CallbackUrlFailed: Failure := Failure(StatusInternalServerError, "处理回调URL失败")
  const MissingCode: Failure := Failure(StatusBadRequest, "缺少 code 参数")
  const NoGoogleEmail: Failure := Failure(StatusInternalServerError, "未获取到 Google 邮箱")
  const NoGitHubIdentity: Failure := Failure(StatusInternalServerError, "未获取到 GitHub 用户名或邮箱")
  const NoWechatOpenId: Failure := Failure(StatusInternalServerError, "未获取到微信 openid")
  const UserWriteFailed: Failure := Failure(StatusInternalServerError, "用户信息写入数据库失败")

  /* ---------- the login redirect ---------- */

  /**
    The callback URL of `LoginGoogle`, `LoginGitHub` and `LoginWechat`: the
    provider must be configured (client id, or app id for WeChat, and redirect
    URI); with no `redirect_url` the configured redirect URI is used as it is,
    otherwise `augment` (URL parsing and setting the `redirect_after_login`
    query parameter) rewrites it, and may fail.
   */
  function CallbackUrl(cfg: AppConfig, p: Provider, redirectUrl: string,
                       augment: (string, string) -> Option<string>): (r: Result<string>)
    ensures var client := ClientOf(cfg, p);
            client.clientId == "" || client.redirectUri == "" ==> r == Err(NotConfigured(p))
    ensures var client := ClientOf(cfg, p);
            client.clientId != "" && client.redirectUri != "" && redirectUrl == "" ==> r == Ok(client.redirectUri)
    ensures var client := ClientOf(cfg, p);
            client.clientId != "" && client.redirectUri != "" && redirectUrl != "" ==>
              r == (match augment(client.redirectUri, redirectUrl)
                    case Some(u) => Ok(u)
                    case None => Err(CallbackUrlFailed))
  {
    var client := ClientOf(cfg, p);
    if client.clientId == "" || client.redirectUri == "" then Err(NotConfigured(p))
    else if redirectUrl == "" then Ok(client.redirectUri)
    else
      match augment(client.redirectUri, redirectUrl)
      case None => Err(CallbackUrlFailed)
      case Some(u) => Ok(u)
  }

  /**
    A provider appears in the login options exactly when its login redirect
    does not refuse for lack of configuration.
   */
  lemma OfferedIffLoginConfigured(cfg: AppConfig, p: Provider, redirectUrl: string,
                                  augment: (string, string) -> Option<string>)
    ensures UserApi.Offered(ClientOf(cfg, p)) <==> CallbackUrl(cfg, p, redirectUrl, augment) != Err(NotConfigured(p))
  {
  }

  /* ---------- identities ---------- */

  /** The account a callback logs into. */
  datatype Identity = Identity(username: string, provider: string)

  /** `username` is `s` with every upper-case ASCII letter lower-cased. */
  predicate LowerCased(username: string, s: string) {
    |username| == |s| && forall k :: 0 <= k < |s| ==> username[k] == LowerChar(s[k])
  }

  /** `GoogleCallback`: the lower-cased email, with provider "google". */
  function GoogleIdentity(code: string, email: string): (r: Result<Identity>)
    ensures code == "" ==> r == Err(MissingCode)
    ensures code != "" && email == "" ==> r == Err(NoGoogleEmail)
    ensures r.Ok? <==> code != "" && email != ""
    ensures r.Ok? ==> LowerCased(r.value.username, email) && r.value.provider == ProviderGoogle
  {
    if code == "" then Err(MissingCode)
    else if email == "" then Err(NoGoogleEmail)
    else Ok(Identity(ToLower(email), ProviderGoogle))
  }

  /** `GitHubCallback`: the lower-cased email, or the lower-cased login when there is no email. */
  function GitHubIdentity(code: string, login: string, email: string): (r: Result<Identity>)
    ensures code == "" ==> r == Err(MissingCode)
    ensures code != "" && login == "" && email == "" ==> r == Err(NoGitHubIdentity)
    ensures r.Ok? <==> code != "" && (login != "" || email != "")
    ensures r.Ok? && email != "" ==> LowerCased(r.value.username, email)
    ensures r.Ok? && email == "" ==> LowerCased(r.value.username, login)
    ensures r.Ok? ==> r.value.provider == ProviderGitHub
  {
    if code == "" then Err(MissingCode)
    else if login == "" && email == "" then Err(NoGitHubIdentity)
    else
      var username := if email != "" then ToLower(email) else ToLower(login);
      Ok(Identity(username, ProviderGitHub))
  }

  /** `WechatCallback`: the openid as it is, with provider "wechat". */
  function WechatIdentity(code: string, openId: string): (r: Result<Identity>)
    ensures code == "" ==> r == Err(MissingCode)
    ensures code != "" && openId == "" ==> r == Err(NoWechatOpenId)
    ensures r.Ok? <==> code != "" && openId != ""
    ensures r.Ok? ==> r.value.username == openId && r.value.provider == ProviderWechat
  {
    if code == "" then Err(MissingCode)
    else if openId == "" then Err(NoWechatOpenId)
    else Ok(Identity(openId, ProviderWechat))
  }

  /** Google accounts are case-insensitive: emails differing only in ASCII case log into the same account. */
  lemma {:induction false} GoogleIgnoresCase(code: string, email1: string, email2: string)
    requires ToLower(email1) == ToLower(email2)
    ensures GoogleIdentity(code, email1) == GoogleIdentity(code, email2)
  {
    if code != "" && (email1 == "" || email2 == "") {
      assert |email1| == |ToLower(email1)| == |ToLower(email2)| == |email2|;
    }
  }

  /* ---------- find-or-create ---------- */

  /**
    gorm's `FirstOrCreate` keyed by (username, provider): the position of the
    first account with that identity, or of a new account with balance 0
    appended for it. A new account whose username another provider already
    holds violates the unique username, and the write fails.
   */
  function FirstOrCreate(users: seq<User>, id: Identity): (r: Result<(nat, seq<User>)>)
    ensures FindUser(users, ByIdentity(id.username, id.provider)).Some? ==>
              r == Ok((FindUser(users, ByIdentity(id.username, id.provider)).value, users))
    ensures r.Err? <==> FindUser(users, ByIdentity(id.username, id.provider)).None? && UsernameTaken(users, id.username)
    ensures r.Err? ==> r.failure == UserWriteFailed
    ensures r.Ok? ==> var (i, users') := r.value;
                      && i < |users'|
                      && users'[i].username == id.username && users'[i].provider == id.provider
                      && |users| <= |users'| <= |users| + 1
                      && users'[..|users|] == users
    ensures r.Ok? && |r.value.1| == |users| + 1 ==>
              r.value.1[|users|] == NewUser(|users| + 1, id.username, id.provider, "")
  {
    match FindUser(users, ByIdentity(id.username, id.provider))
    case Some(i) => Ok((i, users))
    case None =>
      if UsernameTaken(users, id.username) then Err(UserWriteFailed)
      else Ok((|users|, users + [NewUser(|users| + 1, id.username, id.provider, "")]))
  }

  /** Repeating a login with the same identity finds the same account and adds none. */
  lemma FirstOrCreateIdempotent(users: seq<User>, id: Identity)
    requires FirstOrCreate(users, id).Ok?
    ensures var (i, users') := FirstOrCreate(users, id).value;
            FirstOrCreate(users', id) == Ok((i, users'))
  {
    var (i, users') := FirstOrCreate(users, id).value;
    if |users'| == |users| + 1 {
      forall j | 0 <= j < |users|
        ensures !Matches(users'[j], ByIdentity(id.username, id.provider))
      {
        assert users'[j] == users[j];
      }
    }
  }

  /** The row appended by `FirstOrCreate` keeps the ledger well formed. */
  lemma FirstOrCreateKeepsLedger(users: seq<User>, logs: seq<PointLog>, id: Identity)
    requires LedgerWellFormed(users, logs)
    requires FirstOrCreate(users, id).Ok?
    ensures LedgerWellFormed(FirstOrCreate(users, id).value.1, logs)
  {
    if FindUser(users, ByIdentity(id.username, id.provider)).None? {
      LedgerAfterInsert(users, logs, NewUser(|users| + 1, id.username, id.provider, ""));
    }
  }

  /** Where the browser is sent after a login: the requested page, else the home page. */
  function RedirectTarget(redirectAfterLogin: string): (target: string)
    ensures target != ""
    ensures redirectAfterLogin != "" ==> target == redirectAfterLogin
    ensures redirectAfterLogin == "" ==> target == "/"
  {
    if redirectAfterLogin == "" then "/" else redirectAfterLogin
  }

  /** A finished login: the account's id and where the browser goes next. */
  datatype LoginSuccess = LoginSuccess(userId: nat, redirect: string)

  /**
    The common end of the three callbacks: find or create the account of the
    derived identity and redirect; a refused identity changes nothing.
   */
  method CompleteLogin(db: Database, identity: Result<Identity>, redirectAfterLogin: string)
    returns (r: Result<LoginSuccess>)
    requires db.Valid()
    modifies db
    ensures db.Valid()
    ensures identity.Err? ==> r == Err(identity.failure) && db.users == old(db.users)
    ensures identity.Ok? ==>
              var found := FirstOrCreate(old(db.users), identity.value);
              && (found.Err? ==> r == Err(found.failure) && db.users == old(db.users))
              && (found.Ok? ==> && db.users == found.value.1
                                && r == Ok(LoginSuccess(db.users[found.value.0].id, RedirectTarget(redirectAfterLogin))))
    ensures db.logs == old(db.logs) && db.configs == old(db.configs) && db.nextConfigId == old(db.nextConfigId)
    ensures db.sites == old(db.sites) && db.files == old(db.files)
  {
    if identity.Err? {
      return Err(identity.failure);
    }
    var found := FirstOrCreate(db.users, identity.value);
    if found.Err? {
      return Err(found.failure);
    }
    FirstOrCreateKeepsLedger(db.users, db.logs, identity.value);
    var (i, users') := found.value;
    db.users := users';
    r := Ok(LoginSuccess(db.users[i].id, RedirectTarget(redirectAfterLogin)));
  }
}

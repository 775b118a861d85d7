/**
  The local account store (api/user.go): registration and login with an email
  and a password, and the list of login options offered to a visitor who is
  not logged in.
 */
module UserApi {
  import opened Common
  import opened Models
  import opened Store
  import opened Config

  const CredentialsRequired: Failure := Failure(StatusBadRequest, "邮箱和密码不能为空")
  const EmailTaken: Failure := Failure(StatusConflict, "该邮箱已注册")
  const RegisterFailed: Failure := Failure(StatusInternalServerError, "注册失败")
  const BadCredentials: Failure := Failure(StatusUnauthorized, "用户不存在或密码错误")

  /**
    The outcome of `LocalRegisterHandler`: the row it inserts, or why it
    refuses. A username already held by an account of another provider passes
    the (email, "local") check but violates the unique username, so the insert
    fails.
   */
  function RegisterOutcome(users: seq<User>, email: string, password: string): (r: Result<User>)
    ensures email == "" || password == "" ==> r == Err(CredentialsRequired)
    ensures email != "" && password != "" && FindUser(users, ByIdentity(email, ProviderLocal)).Some? ==>
              r == Err(EmailTaken)
    ensures r.Ok? <==> email != "" && password != "" && !UsernameTaken(users, email)
    ensures r.Ok? ==> r.value == NewUser(|users| + 1, email, ProviderLocal, password)
    ensures r.Err? && email != "" && password != "" && r.failure != EmailTaken ==> r.failure == RegisterFailed
  {
    if email == "" || password == "" then Err(CredentialsRequired)
    else if FindUser(users, ByIdentity(email, ProviderLocal)).Some? then Err(EmailTaken)
    else if UsernameTaken(users, email) then Err(RegisterFailed)
    else Ok(NewUser(|users| + 1, email, ProviderLocal, password))
  }

  /** `LocalRegisterHandler`: on success the new account is appended; otherwise nothing changes. */
  method LocalRegister(db: Database, email: string, password: string) returns (r: Result<User>)
    requires db.Valid()
    modifies db
    ensures db.Valid()
    ensures r == RegisterOutcome(old(db.users), email, password)
    ensures db.users == if r.Ok? then old(db.users) + [r.value] else old(db.users)
    ensures db.logs == old(db.logs) && db.configs == old(db.configs) && db.nextConfigId == old(db.nextConfigId)
    ensures db.sites == old(db.sites) && db.files == old(db.files)
  {
    r := RegisterOutcome(db.users, email, password);
    if r.Ok? {
      LedgerAfterInsert(db.users, db.logs, r.value);
      db.users := db.users + [r.value];
    }
  }

  /**
    `LocalLoginHandler`: succeeds exactly for the local account of that email
    whose stored password is the one given; an unknown email and a wrong
    password give the same answer.
   */
  function LocalLogin(users: seq<User>, email: string, password: string): (r: Result<User>)
    ensures email == "" || password == "" ==> r == Err(CredentialsRequired)
    ensures r.Ok? <==> && email != "" && password != ""
                       && FindUser(users, ByIdentity(email, ProviderLocal)).Some?
                       && users[FindUser(users, ByIdentity(email, ProviderLocal)).value].password == password
    ensures r.Ok? ==> r.value == users[FindUser(users, ByIdentity(email, ProviderLocal)).value]
    ensures r.Err? && email != "" && password != "" ==> r == Err(BadCredentials)
  {
    if email == "" || password == "" then Err(CredentialsRequired)
    else
      match FindUser(users, ByIdentity(email, ProviderLocal))
      case None => Err(BadCredentials)
      case Some(i) => if users[i].password != password then Err(BadCredentials) else Ok(users[i])
  }

  /** An account just registered can log in with the same email and password. */
  lemma RegisterThenLogin(users: seq<User>, email: string, password: string)
    requires RegisterOutcome(users, email, password).Ok?
    ensures var u := RegisterOutcome(users, email, password).value;
            LocalLogin(users + [u], email, password) == Ok(u)
  {
    var u := RegisterOutcome(users, email, password).value;
    var users' := users + [u];
    assert Matches(users'[|users|], ByIdentity(email, ProviderLocal));
    assert FindUser(users', ByIdentity(email, ProviderLocal)) == Some(|users|);
  }

  /** Registering the same email twice is refused the second time, with a conflict. */
  lemma RegisterTwiceConflicts(users: seq<User>, email: string, password: string, password2: string)
    requires RegisterOutcome(users, email, password).Ok?
    requires password2 != ""
    ensures var u := RegisterOutcome(users, email, password).value;
            RegisterOutcome(users + [u], email, password2) == Err(EmailTaken)
  {
    var u := RegisterOutcome(users, email, password).value;
    assert Matches((users + [u])[|users|], ByIdentity(email, ProviderLocal));
  }

  /* ---------- login options ---------- */

  datatype LoginOption = LoginOption(name: string, url: string)

  const GoogleOption: LoginOption := LoginOption("Google", "/api/login/google")
  const GitHubOption: LoginOption := LoginOption("GitHub", "/api/login/github")
  const WechatOption: LoginOption := LoginOption("微信", "/api/login/wechat")
  const EmailLoginOption: LoginOption := LoginOption("邮箱登录", "/login.html")
  const EmailRegisterOption: LoginOption := LoginOption("邮箱注册", "/register.html")

  /** A provider is offered when both its client id (WeChat: app id) and its redirect URI are set. */
  predicate Offered(client: OAuthClient) {
    client.clientId != "" && client.redirectUri != ""
  }

  /** The provider part of the list: Google, GitHub and WeChat in that order, each only when configured. */
  method ProviderOptions(cfg: AppConfig) returns (options: seq<LoginOption>)
    ensures |options| <= 3
    ensures GoogleOption in options <==> Offered(cfg.googleOAuth)
    ensures GitHubOption in options <==> Offered(cfg.gitHubOAuth)
    ensures WechatOption in options <==> Offered(cfg.wechatOAuth)
    ensures forall i :: 0 <= i < |options| ==> Rank(options[i]) <= 2
    ensures forall i, j :: 0 <= i < j < |options| ==> Rank(options[i]) < Rank(options[j])
  {
    RanksDistinct();
    options := [];
    if Offered(cfg.googleOAuth) {
      options := options + [GoogleOption];
    }
    if Offered(cfg.gitHubOAuth) {
      options := options + [GitHubOption];
    }
    if Offered(cfg.wechatOAuth) {
      options := options + [WechatOption];
    }
  }

  /**
    `getAvailableLoginOptions`: Google, GitHub and WeChat in that order, each
    only when configured, then always the email login and registration pages.
   */
  method AvailableLoginOptions(cfg: AppConfig) returns (options: seq<LoginOption>)
    ensures 2 <= |options| <= 5
    ensures options[|options| - 2..] == [EmailLoginOption, EmailRegisterOption]
    ensures GoogleOption in options <==> Offered(cfg.googleOAuth)
    ensures GitHubOption in options <==> Offered(cfg.gitHubOAuth)
    ensures WechatOption in options <==> Offered(cfg.wechatOAuth)
    ensures forall i, j :: 0 <= i < j < |options| ==> Rank(options[i]) < Rank(options[j])
  {
    RanksDistinct();
    options := ProviderOptions(cfg);
    options := options + [EmailLoginOption];
    options := options + [EmailRegisterOption];
  }

  /** The five options are distinct: each has its own rank. */
  lemma RanksDistinct()
    ensures Rank(GoogleOption) == 0 && Rank(GitHubOption) == 1 && Rank(WechatOption) == 2
    ensures Rank(EmailLoginOption) == 3 && Rank(EmailRegisterOption) == 4
  {
    assert GoogleOption.name[1] != GitHubOption.name[1];
    assert |WechatOption.name| == 2 && |EmailLoginOption.name| == 4 && |EmailRegisterOption.name| == 4;
    assert EmailLoginOption.name[2] != EmailRegisterOption.name[2];
  }

  /** The position of an option in the fixed order of the list. */
  function Rank(o: LoginOption): nat {
    if o == GoogleOption then 0
    else if o == GitHubOption then 1
    else if o == WechatOption then 2
    else if o == EmailLoginOption then 3
    else 4
  }
}

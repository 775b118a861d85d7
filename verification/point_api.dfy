/**
  The points ledger (api/point_api.go): path normalisation, the price upsert,
  the spend behind a download, the administrator's grant, and the balance and
  log queries.

  Every operation that changes a balance appends one log entry carrying exactly
  that change, and new users start at 0, so `Database.Valid()` (which includes
  `Store.Reconciled`) holds after each of them: every balance is the sum of its
  user's log entries.
 */
module PointApi {
  import opened Common
  import opened Text
  import opened Models
  import opened Store

  /* ---------- path normalisation ---------- */

  /**
    The file path as the handlers store and look it up: surrounding white space
    trimmed, then at most one leading '/' dropped.
   */
  function NormalizePath(raw: string): string {
    var t := TrimSpace(raw);
    if HasPrefix(t, "/") then t[1..] else t
  }

  /**
    The normalised path is what is left of the trimmed input once a leading '/'
    is dropped: exactly one character shorter when the trimmed input starts
    with '/', and the trimmed input itself otherwise.
   */
  lemma NormalizePathShape(raw: string)
    ensures var t := TrimSpace(raw); var path := NormalizePath(raw);
            && |path| <= |t| <= |path| + 1
            && path == t[|t| - |path|..]
            && (|path| < |t| <==> HasPrefix(t, "/"))
  {
  }

  /** A path with no surrounding white space and no leading '/' is already normal. */
  lemma NormalizeKeepsNormalPath(path: string)
    requires path == [] || (!IsSpace(path[0]) && !IsSpace(path[|path| - 1]))
    requires !HasPrefix(path, "/")
    ensures NormalizePath(path) == path
  {
    var t := TrimSpace(path);
    var i :| TrimmedAt(path, t, i);
    if path != [] {
      assert i == 0;
      assert |t| == |path|;
    }
  }

  /* ---------- ConfigurePoints ---------- */

  /** The entry an upsert leaves at `path`: the existing one with new values, or a new one. */
  function UpsertedConfig(configs: map<string, PointConfig>, nextConfigId: nat,
                          path: string, points: int, description: string): (c: PointConfig)
    requires ConfigsWellFormed(configs, nextConfigId)
    ensures c.fileUrl == path && c.points == points && c.description == description
    ensures path in configs ==> c.id == configs[path].id
    ensures path !in configs ==> c.id == nextConfigId
  {
    if path in configs then configs[path].(points := points, description := description)
    else PointConfig(nextConfigId, path, points, description)
  }

  /**
    The price table after `ConfigurePoints` on the normalised `path`: the entry
    there holds the new values, a new entry takes the next id, and no other
    entry changes.
   */
  function Configured(configs: map<string, PointConfig>, nextConfigId: nat,
                      path: string, points: int, description: string): (r: (map<string, PointConfig>, nat))
    requires ConfigsWellFormed(configs, nextConfigId)
    ensures ConfigsWellFormed(r.0, r.1)
    ensures r.0.Keys == configs.Keys + {path}
    ensures r.0[path].points == points && r.0[path].description == description
    ensures path in configs ==> r.1 == nextConfigId && r.0[path].id == configs[path].id
    ensures path !in configs ==> r.1 == nextConfigId + 1 && r.0[path].id == nextConfigId
    ensures forall url :: url in configs && url != path ==> r.0[url] == configs[url]
  {
    var c := UpsertedConfig(configs, nextConfigId, path, points, description);
    var next := if path in configs then nextConfigId else nextConfigId + 1;
    UpsertKeepsWellFormed(configs, nextConfigId, path, c, next);
    (configs[path := c], next)
  }

  /** Storing an entry under its own path, with its old id or the next one, keeps the table well formed. */
  lemma UpsertKeepsWellFormed(configs: map<string, PointConfig>, nextConfigId: nat, path: string,
                              c: PointConfig, next: nat)
    requires ConfigsWellFormed(configs, nextConfigId)
    requires c.fileUrl == path
    requires path in configs ==> c.id == configs[path].id && next == nextConfigId
    requires path !in configs ==> c.id == nextConfigId && next == nextConfigId + 1
    ensures ConfigsWellFormed(configs[path := c], next)
  {
  }

  /**
    Configuring a path twice leaves a single entry there, holding the second
    call's values and the identity the first call gave it.
   */
  lemma ConfigureTwiceLastWins(configs: map<string, PointConfig>, nextConfigId: nat,
                               path: string, points1: int, description1: string,
                               points2: int, description2: string)
    requires ConfigsWellFormed(configs, nextConfigId)
    ensures var once := Configured(configs, nextConfigId, path, points1, description1);
            var twice := Configured(once.0, once.1, path, points2, description2);
            twice == Configured(configs, nextConfigId, path, points2, description2)
  {
    var once := Configured(configs, nextConfigId, path, points1, description1);
    var c1 := UpsertedConfig(configs, nextConfigId, path, points1, description1);
    var c2 := UpsertedConfig(once.0, once.1, path, points2, description2);
    assert once.0 == configs[path := c1];
    assert c2 == UpsertedConfig(configs, nextConfigId, path, points2, description2);
    assert once.0[path := c2] == configs[path := c2];
  }

  /** Configuring a path twice with the same values is the same as configuring it once. */
  lemma ConfigureIdempotent(configs: map<string, PointConfig>, nextConfigId: nat,
                            path: string, points: int, description: string)
    requires ConfigsWellFormed(configs, nextConfigId)
    ensures var once := Configured(configs, nextConfigId, path, points, description);
            Configured(once.0, once.1, path, points, description) == once
  {
    var once := Configured(configs, nextConfigId, path, points, description);
    var c := UpsertedConfig(once.0, once.1, path, points, description);
    assert c == once.0[path];
    assert once.0[path := c] == once.0;
  }

  /**
    `ConfigurePoints`: an upsert keyed by the normalised path. An existing entry
    keeps its id and gets the new points and description; otherwise a new entry
    is inserted.
   */
  method ConfigurePoints(db: Database, fileUrl: string, points: int, description: string)
    returns (message: string)
    requires db.Valid()
    modifies db
    ensures db.Valid()
    ensures (db.configs, db.nextConfigId)
            == Configured(old(db.configs), old(db.nextConfigId), NormalizePath(fileUrl), points, description)
    ensures message == if NormalizePath(fileUrl) in old(db.configs) then "配置更新成功" else "配置保存成功"
    ensures db.users == old(db.users) && db.logs == old(db.logs)
    ensures db.sites == old(db.sites) && db.files == old(db.files)
  {
    var path := NormalizePath(fileUrl);
    if path in db.configs {
      var existing := db.configs[path];
      existing := existing.(points := points, description := description);
      db.configs := db.configs[path := existing];
      message := "配置更新成功";
    } else {
      var config := PointConfig(db.nextConfigId, path, points, description);
      db.configs := db.configs[path := config];
      db.nextConfigId := db.nextConfigId + 1;
      message := "配置保存成功";
    }
  }

  /* ---------- DownloadFile (the spend) ---------- */

  /** The configured price of a path, or the default price when it has none. */
  function SpendPrice(configs: map<string, PointConfig>, path: string, defaultPoints: int): (price: int)
    ensures path in configs ==> price == configs[path].points
    ensures path !in configs ==> price == defaultPoints
  {
    if path in configs then configs[path].points else defaultPoints
  }

  /** After `ConfigurePoints`, a spend on any spelling of that path costs the configured points. */
  lemma ConfiguredPriceIsCharged(configs: map<string, PointConfig>, nextConfigId: nat,
                                 fileUrl: string, points: int, description: string,
                                 requested: string, defaultPoints: int)
    requires ConfigsWellFormed(configs, nextConfigId)
    requires NormalizePath(requested) == NormalizePath(fileUrl)
    ensures var after := Configured(configs, nextConfigId, NormalizePath(fileUrl), points, description).0;
            SpendPrice(after, NormalizePath(requested), defaultPoints) == points
  {
  }

  const NotLoggedIn: Failure := Failure(StatusUnauthorized, "未登录，请先登录")
  const UserLookupFailed: Failure := Failure(StatusInternalServerError, "用户操作失败")
  const InsufficientPoints: Failure := Failure(StatusForbidden, "积分不足")
  const DownloadUrlFailed: Failure := Failure(StatusInternalServerError, "获取下载地址失败")

  /** What an approved spend charges: whose row, how much, for which path. */
  datatype SpendPlan = SpendPlan(index: nat, price: int, path: string)

  /**
    The checks `DownloadFile` makes before it writes anything: a logged-in user
    that exists, whose balance covers the price.
   */
  function PlanSpend(users: seq<User>, configs: map<string, PointConfig>, userId: Option<nat>,
                     fileUrl: string, defaultPoints: int): (r: Result<SpendPlan>)
    ensures userId.None? ==> r == Err(NotLoggedIn)
    ensures userId.Some? && FindUser(users, ById(userId.value)).None? ==> r == Err(UserLookupFailed)
    ensures r.Ok? ==> && userId.Some?
                      && r.value.index < |users|
                      && users[r.value.index].id == userId.value
                      && r.value.path == NormalizePath(fileUrl)
                      && r.value.price == SpendPrice(configs, r.value.path, defaultPoints)
                      && users[r.value.index].points >= r.value.price
    ensures r.Err? && userId.Some? && FindUser(users, ById(userId.value)).Some? ==>
              r == Err(InsufficientPoints)
              && users[FindUser(users, ById(userId.value)).value].points
                 < SpendPrice(configs, NormalizePath(fileUrl), defaultPoints)
  {
    var path := NormalizePath(fileUrl);
    if userId.None? then Err(NotLoggedIn)
    else
      var price := SpendPrice(configs, path, defaultPoints);
      match FindUser(users, ById(userId.value))
      case None => Err(UserLookupFailed)
      case Some(i) =>
        if users[i].points < price then Err(InsufficientPoints)
        else Ok(SpendPlan(i, price, path))
  }

  /** The description a spend writes into its log entry. */
  function SpendDescription(path: string): string {
    "下载文件：" + path
  }

  /**
    `DownloadFile`: on a refused spend nothing changes; otherwise the balance
    drops by the price (and stays at or above 0), exactly one log entry with
    the negative price is appended, and only then is the download URL asked
    for, so a resolver failure leaves the debit and the entry in place.
   */
  method DownloadFile(db: Database, userId: Option<nat>, fileUrl: string, defaultPoints: int,
                      resolve: string -> Option<string>)
    returns (r: Result<string>)
    requires db.Valid()
    modifies db
    ensures db.Valid()
    ensures var plan := PlanSpend(old(db.users), old(db.configs), userId, fileUrl, defaultPoints);
            plan.Err? ==> r == Err(plan.failure) && db.users == old(db.users) && db.logs == old(db.logs)
    ensures var plan := PlanSpend(old(db.users), old(db.configs), userId, fileUrl, defaultPoints);
            plan.Ok? ==>
              var p := plan.value;
              var before := old(db.users)[p.index];
              && db.users == old(db.users)[p.index := before.(points := before.points - p.price)]
              && db.users[p.index].points >= 0
              && db.logs == old(db.logs) + [PointLog(|old(db.logs)| + 1, before.id, -p.price,
                                                     LogTypeFileAccess, SpendDescription(p.path), p.path)]
              && r == (if resolve(p.path).Some? then Ok(resolve(p.path).value) else Err(DownloadUrlFailed))
    ensures db.configs == old(db.configs) && db.nextConfigId == old(db.nextConfigId)
    ensures db.sites == old(db.sites) && db.files == old(db.files)
  {
    var plan := PlanSpend(db.users, db.configs, userId, fileUrl, defaultPoints);
    if plan.Err? {
      return Err(plan.failure);
    }
    var p := plan.value;
    var entry := PointLog(|db.logs| + 1, db.users[p.index].id, -p.price, LogTypeFileAccess,
                          SpendDescription(p.path), p.path);
    LedgerAfterEntry(db.users, db.logs, p.index, entry);
    db.users := db.users[p.index := db.users[p.index].(points := db.users[p.index].points + entry.points)];
    db.logs := db.logs + [entry];
    var url := resolve(p.path);
    if url.None? {
      return Err(DownloadUrlFailed);
    }
    return Ok(url.value);
  }

  /* ---------- AdminGrantPoints ---------- */

  /**
    `AdminGrantPoints`: the user is found by username alone, or created with
    balance 0; the signed amount is added with no lower bound, and one log
    entry with exactly that amount, the given description and an empty type is
    appended.
   */
  method AdminGrantPoints(db: Database, username: string, delta: int, description: string)
    returns (user: User)
    requires db.Valid()
    modifies db
    ensures db.Valid()
    ensures var found := FindUser(old(db.users), ByUsername(username));
            found.Some? ==>
              && user == old(db.users)[found.value].(points := old(db.users)[found.value].points + delta)
              && db.users == old(db.users)[found.value := user]
    ensures FindUser(old(db.users), ByUsername(username)).None? ==>
              && user == NewUser(|old(db.users)| + 1, username, "", "").(points := delta)
              && db.users == old(db.users) + [user]
    ensures db.logs == old(db.logs) + [PointLog(|old(db.logs)| + 1, user.id, delta, "", description, "")]
    ensures db.configs == old(db.configs) && db.nextConfigId == old(db.nextConfigId)
    ensures db.sites == old(db.sites) && db.files == old(db.files)
  {
    var found := FindUser(db.users, ByUsername(username));
    var i: nat;
    if found.Some? {
      i := found.value;
    } else {
      var created := NewUser(|db.users| + 1, username, "", "");
      LedgerAfterInsert(db.users, db.logs, created);
      db.users := db.users + [created];
      i := |db.users| - 1;
    }
    var entry := PointLog(|db.logs| + 1, db.users[i].id, delta, "", description, "");
    LedgerAfterEntry(db.users, db.logs, i, entry);
    user := db.users[i].(points := db.users[i].points + entry.points);
    db.users := db.users[i := user];
    db.logs := db.logs + [entry];
  }

  /* ---------- GetUserPoints ---------- */

  datatype UserPoints = UserPoints(username: string, points: int)

  const UsernameRequired: Failure := Failure(StatusBadRequest, "用户名不能为空")
  const UserNotFound: Failure := Failure(StatusNotFound, "用户不存在")

  /** `GetUserPoints`: the balance of the local account with that username. */
  function GetUserPoints(users: seq<User>, username: string): (r: Result<UserPoints>)
    ensures username == "" ==> r == Err(UsernameRequired)
    ensures username != "" && FindUser(users, ByIdentity(username, ProviderLocal)).None? ==> r == Err(UserNotFound)
    ensures r.Ok? ==> var f := FindUser(users, ByIdentity(username, ProviderLocal));
                      && f.Some?
                      && users[f.value].username == username && users[f.value].provider == ProviderLocal
                      && r.value == UserPoints(username, users[f.value].points)
  {
    if username == "" then Err(UsernameRequired)
    else
      match FindUser(users, ByIdentity(username, ProviderLocal))
      case None => Err(UserNotFound)
      case Some(i) => Ok(UserPoints(users[i].username, users[i].points))
  }

  /** The balance the query reports is the sum of that user's log entries. */
  lemma ReportedBalanceIsLogSum(users: seq<User>, logs: seq<PointLog>, username: string)
    requires Reconciled(users, logs)
    requires GetUserPoints(users, username).Ok?
    ensures var i := FindUser(users, ByIdentity(username, ProviderLocal)).value;
            GetUserPoints(users, username).value.points == LogSum(logs, users[i].id)
  {
  }

  /* ---------- GetPointsLog ---------- */

  const DefaultLogLimit: nat := 50

  /** The `limit` query parameter: a parsed integer above 0, else 50. */
  function LogLimit(limitStr: string): (limit: nat)
    ensures limit > 0
    ensures Atoi(limitStr).None? ==> limit == DefaultLogLimit
    ensures Atoi(limitStr).Some? && Atoi(limitStr).value <= 0 ==> limit == DefaultLogLimit
    ensures Atoi(limitStr).Some? && Atoi(limitStr).value > 0 ==> limit == Atoi(limitStr).value
  {
    if limitStr != "" then
      match Atoi(limitStr)
      case Some(l) => if l > 0 then l else DefaultLogLimit
      case None => DefaultLogLimit
    else DefaultLogLimit
  }

  /** Any positive 64-bit limit written in decimal is taken as given. */
  lemma LogLimitReadsDecimal(n: int)
    requires 0 < n <= MaxInt64
    ensures LogLimit(Itoa(n)) == n
  {
    AtoiItoa(n);
  }

  /**
    Whether a log entry is listed: with no username every entry is, otherwise
    only those of the local account with that username.
   */
  predicate LogSelected(users: seq<User>, username: string, e: PointLog) {
    username == "" ||
    match FindUser(users, ByIdentity(username, ProviderLocal))
    case None => false
    case Some(i) => e.userId == users[i].id
  }

  function LogId(e: PointLog): int { e.id }

  /** The user filter of the log query, as a row predicate. */
  function Selector(users: seq<User>, username: string): PointLog -> bool {
    (e: PointLog) => LogSelected(users, username, e)
  }

  /**
    In a well-formed log, the limited listing is newest first, and every
    selected entry it leaves out is older than every entry it lists.
   */
  lemma LogPageNewestFirst(users: seq<User>, logs: seq<PointLog>, username: string, limit: nat)
    ensures var listed := NewestFirst(logs, Selector(users, username));
            var page := Take(listed, limit);
            LogsWellFormed(logs, |users|) ==>
              && Descending(page, LogId)
              && forall x, y :: x in page && y in listed && y !in page ==> x.id > y.id
  {
    if LogsWellFormed(logs, |users|) {
      var listed := NewestFirst(logs, Selector(users, username));
      assert Ascending(logs, LogId);
      NewestFirstDescending(logs, Selector(users, username), LogId);
      TakeKeepsNewest(listed, limit, LogId);
    }
  }

  /**
    `GetPointsLog`: an unknown username is not-found; otherwise at most `limit`
    entries of the selected user (or of everyone), newest first, and no newer
    selected entry is left out.
   */
  function GetPointsLog(users: seq<User>, logs: seq<PointLog>, username: string, limitStr: string)
    : (r: Result<seq<PointLog>>)
    ensures r.Ok? <==> username == "" || FindUser(users, ByIdentity(username, ProviderLocal)).Some?
    ensures r.Err? ==> r.failure == UserNotFound
    ensures r.Ok? ==> |r.value| <= LogLimit(limitStr)
    ensures r.Ok? ==> forall e :: e in r.value ==> e in logs && LogSelected(users, username, e)
    ensures r.Ok? ==> forall e :: e in logs && LogSelected(users, username, e) && e !in r.value ==>
                        |r.value| == LogLimit(limitStr)
    ensures r.Ok? && LogsWellFormed(logs, |users|) ==> Descending(r.value, LogId)
    ensures r.Ok? && LogsWellFormed(logs, |users|) ==>
              forall x, e :: x in r.value && e in logs && LogSelected(users, username, e) && e !in r.value ==>
                x.id > e.id
  {
    var limit := LogLimit(limitStr);
    if username != "" && FindUser(users, ByIdentity(username, ProviderLocal)).None? then Err(UserNotFound)
    else
      var listed := NewestFirst(logs, Selector(users, username));
      TakeMembers(listed, limit);
      LogPageNewestFirst(users, logs, username, limit);
      Ok(Take(listed, limit))
  }
}

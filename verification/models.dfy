/**
  The rows of the gateway's tables (models/points.go, models/site.go,
  models/file.go). `gorm.Model` contributes the numeric `id`; timestamps are
  not modelled, and the order in which rows were written is their `id` order.
 */
module Models {

  /**
    A user account. models/points.go:10-15 declares only the username and the
    balance; the provider, password, administrator flag and site are the
    columns that api/user.go:141 and cmd/init.go:57-63 write.
   */
  datatype User = User(
    id: nat,
    username: string,
    provider: string,
    password: string,
    points: int,
    isAdmin: bool,
    siteId: nat)

  /**
    A price entry: what a download of `fileUrl` costs. The table has no site
    column, so one price holds for a path on every site.
   */
  datatype PointConfig = PointConfig(
    id: nat,
    fileUrl: string,
    points: int,
    description: string)

  /** One entry of the append-only point log: a signed change of a user's balance. */
  datatype PointLog = PointLog(
    id: nat,
    userId: nat,
    points: int,
    logType: string,
    description: string,
    fileUrl: string)

  datatype Site = Site(id: nat, name: string, domain: string)

  /** An uploaded file, with the price entry a listing attaches to it. */
  datatype File = File(
    id: nat,
    siteId: nat,
    path: string,
    name: string,
    size: int,
    contentType: string,
    downloads: int,
    pointConfig: PointConfig)

  const ProviderLocal: string := "local"
  const ProviderGoogle: string := "google"
  const ProviderGitHub: string := "github"
  const ProviderWechat: string := "wechat"

  /** The log types the model documents (models/points.go:30). */
  const LogTypeFileAccess: string := "file_access"
  const LogTypeAdminGrant: string := "admin_grant"

  /** The zero value of a price entry: what Go leaves in a field never assigned. */
  const NoConfig: PointConfig := PointConfig(0, "", 0, "")

  /** A user row as first inserted: the balance column defaults to 0. */
  function NewUser(id: nat, username: string, provider: string, password: string): (u: User)
    ensures u.points == 0 && !u.isAdmin
  {
    User(id, username, provider, password, 0, false, 0)
  }
}

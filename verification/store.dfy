/**
  The database behind the handlers: the tables as values, the query shapes the
  handlers use (`First`, newest-first listing with a limit), and the ledger's
  reconciliation invariant.
 */
module Store {
  import opened Common
  import opened Models

  /* ---------- queries ---------- */

  /**
    gorm's `First`: the position of the lowest-id row satisfying `p`, or None.
   */
  function FirstIndex<T>(rows: seq<T>, p: T -> bool): (r: Option<nat>)
    ensures r.Some? ==> r.value < |rows| && p(rows[r.value])
    ensures r.Some? ==> forall j :: 0 <= j < r.value ==> !p(rows[j])
    ensures r.None? ==> forall j :: 0 <= j < |rows| ==> !p(rows[j])
  {
    if rows == [] then None
    else if p(rows[0]) then Some(0)
    else
      match FirstIndex(rows[1..], p)
      case None => None
      case Some(k) => Some(k + 1)
  }

  /**
    `Order("id desc")` on the rows satisfying `keep`: every such row, newest
    (last written) first.
   */
  function NewestFirst<T(!new)>(rows: seq<T>, keep: T -> bool): (r: seq<T>)
    ensures |r| <= |rows|
    ensures forall x :: x in r <==> x in rows && keep(x)
  {
    if rows == [] then []
    else
      var last := rows[|rows| - 1];
      var older := NewestFirst(rows[..|rows| - 1], keep);
      assert forall x :: x in rows <==> x in rows[..|rows| - 1] || x == last;
      if keep(last) then [last] + older else older
  }

  predicate Ascending<T>(rows: seq<T>, key: T -> int) {
    forall i, j :: 0 <= i < j < |rows| ==> key(rows[i]) < key(rows[j])
  }

  predicate Descending<T>(rows: seq<T>, key: T -> int) {
    forall i, j :: 0 <= i < j < |rows| ==> key(rows[i]) > key(rows[j])
  }

  /** When rows were written with increasing keys, the listing has decreasing keys. */
  lemma {:induction false} NewestFirstDescending<T(!new)>(rows: seq<T>, keep: T -> bool, key: T -> int)
    requires Ascending(rows, key)
    ensures Descending(NewestFirst(rows, keep), key)
  {
    if rows != [] {
      var init := rows[..|rows| - 1];
      var last := rows[|rows| - 1];
      NewestFirstDescending(init, keep, key);
      var older := NewestFirst(init, keep);
      forall x | x in older
        ensures key(x) < key(last)
      {
        var k :| 0 <= k < |init| && init[k] == x;
        assert rows[k] == x;
      }
      if keep(last) {
        var r := [last] + older;
        forall i, j | 0 <= i < j < |r|
          ensures key(r[i]) > key(r[j])
        {
          if i == 0 {
            assert r[j] in older;
          } else {
            assert r[i] == older[i - 1] && r[j] == older[j - 1];
          }
        }
      }
    }
  }

  /** `Limit(n)`: the first `n` rows, or all of them when there are fewer. */
  function Take<T>(rows: seq<T>, n: nat): (r: seq<T>)
    ensures |r| == if n < |rows| then n else |rows|
    ensures r == rows[..|r|]
  {
    if n < |rows| then rows[..n] else rows
  }

  /** A limited listing holds only rows of the listing. */
  lemma TakeMembers<T>(rows: seq<T>, n: nat)
    ensures forall x :: x in Take(rows, n) ==> x in rows
  {
    var page := Take(rows, n);
    forall x | x in page
      ensures x in rows
    {
      var i :| 0 <= i < |page| && page[i] == x;
      assert rows[i] == x;
    }
  }

  /** Limiting a listing with decreasing keys keeps the rows with the largest keys. */
  lemma TakeKeepsNewest<T>(rows: seq<T>, n: nat, key: T -> int)
    requires Descending(rows, key)
    ensures forall x, y :: x in Take(rows, n) && y in rows && y !in Take(rows, n) ==> key(x) > key(y)
  {
    var page := Take(rows, n);
    forall x, y | x in page && y in rows && y !in page
      ensures key(x) > key(y)
    {
      var i :| 0 <= i < |page| && page[i] == x;
      var j :| 0 <= j < |rows| && rows[j] == y;
      assert |page| <= j;
    }
  }

  /** `Offset(o).Limit(n)`: rows `o` to `o + n`, clipped to what exists. */
  function Window<T>(rows: seq<T>, offset: nat, n: nat): (r: seq<T>)
    ensures |r| <= n
    ensures offset <= |rows| ==> r == Take(rows[offset..], n)
    ensures offset > |rows| ==> r == []
  {
    if offset <= |rows| then Take(rows[offset..], n) else []
  }

  /* ---------- users ---------- */

  /** The `Where` clauses the handlers look users up by. */
  datatype UserKey =
    | ById(id: nat)
    | ByUsername(username: string)
    | ByIdentity(username: string, provider: string)

  predicate Matches(u: User, k: UserKey) {
    match k
    case ById(id) => u.id == id
    case ByUsername(name) => u.username == name
    case ByIdentity(name, provider) => u.username == name && u.provider == provider
  }

  /** `db.Where(k).First(&user)` on the users table. */
  function FindUser(users: seq<User>, k: UserKey): (r: Option<nat>)
    ensures r.Some? ==> r.value < |users| && Matches(users[r.value], k)
    ensures r.Some? ==> forall j :: 0 <= j < r.value ==> !Matches(users[j], k)
    ensures r.None? ==> forall j :: 0 <= j < |users| ==> !Matches(users[j], k)
  {
    FirstIndex(users, u => Matches(u, k))
  }

  predicate UsernameTaken(users: seq<User>, name: string) {
    exists j :: 0 <= j < |users| && users[j].username == name
  }

  /**
    Ids are the auto-increment 1, 2, ... in insertion order, and usernames are
    unique (the `uniqueIndex` of models/points.go:12).
   */
  predicate UsersWellFormed(users: seq<User>) {
    && (forall i :: 0 <= i < |users| ==> users[i].id == i + 1)
    && (forall i, j :: 0 <= i < j < |users| ==> users[i].username != users[j].username)
  }

  /** In a well-formed table a user is found by id at position id - 1. */
  lemma FindUserById(users: seq<User>, id: nat)
    requires UsersWellFormed(users)
    ensures FindUser(users, ById(id)) == if 1 <= id <= |users| then Some(id - 1) else None
  {
    if 1 <= id <= |users| {
      assert Matches(users[id - 1], ById(id));
    }
  }

  /* ---------- the point log ---------- */

  /** The sum of the log entries of one user. */
  function LogSum(logs: seq<PointLog>, userId: nat): int {
    if logs == [] then 0
    else (if logs[0].userId == userId then logs[0].points else 0) + LogSum(logs[1..], userId)
  }

  /** Appending an entry adds its points to its own user's sum and no other. */
  lemma {:induction false} LogSumAppend(logs: seq<PointLog>, e: PointLog, userId: nat)
    ensures LogSum(logs + [e], userId) == LogSum(logs, userId) + (if e.userId == userId then e.points else 0)
  {
    if logs == [] {
      assert [e][1..] == [];
    } else {
      assert (logs + [e])[1..] == logs[1..] + [e];
      LogSumAppend(logs[1..], e, userId);
    }
  }

  /** A user no entry refers to has sum 0. */
  lemma {:induction false} LogSumUnreferenced(logs: seq<PointLog>, userId: nat)
    requires forall i :: 0 <= i < |logs| ==> logs[i].userId != userId
    ensures LogSum(logs, userId) == 0
  {
    if logs != [] {
      LogSumUnreferenced(logs[1..], userId);
    }
  }

  /** Log entries are numbered 1, 2, ... in the order written and refer to existing users. */
  predicate LogsWellFormed(logs: seq<PointLog>, userCount: nat) {
    forall i :: 0 <= i < |logs| ==> logs[i].id == i + 1 && 1 <= logs[i].userId <= userCount
  }

  /** The reconciliation invariant: every balance is the sum of its user's log entries. */
  predicate Reconciled(users: seq<User>, logs: seq<PointLog>) {
    forall i :: 0 <= i < |users| ==> users[i].points == LogSum(logs, users[i].id)
  }

  /**
    Changing one balance by the points of an appended entry for that user keeps
    every balance equal to its log sum.
   */
  lemma ReconciledAfterEntry(users: seq<User>, logs: seq<PointLog>, i: nat, e: PointLog)
    requires UsersWellFormed(users) && Reconciled(users, logs)
    requires i < |users| && e.userId == users[i].id
    ensures Reconciled(users[i := users[i].(points := users[i].points + e.points)], logs + [e])
  {
    var users' := users[i := users[i].(points := users[i].points + e.points)];
    forall j | 0 <= j < |users'|
      ensures users'[j].points == LogSum(logs + [e], users'[j].id)
    {
      LogSumAppend(logs, e, users[j].id);
    }
  }

  /** A new user with balance 0 and a fresh id keeps the invariant. */
  lemma ReconciledAfterInsert(users: seq<User>, logs: seq<PointLog>, u: User)
    requires LogsWellFormed(logs, |users|) && Reconciled(users, logs)
    requires u.id == |users| + 1 && u.points == 0
    ensures Reconciled(users + [u], logs)
  {
    LogSumUnreferenced(logs, u.id);
  }

  /** The user table and the point log together, with every balance reconciled. */
  predicate LedgerWellFormed(users: seq<User>, logs: seq<PointLog>) {
    UsersWellFormed(users) && LogsWellFormed(logs, |users|) && Reconciled(users, logs)
  }

  /**
    A balance change written together with its log entry (the next id, for
    that user, carrying exactly the change) keeps the ledger well formed.
   */
  lemma LedgerAfterEntry(users: seq<User>, logs: seq<PointLog>, i: nat, e: PointLog)
    requires LedgerWellFormed(users, logs)
    requires i < |users| && e.userId == users[i].id && e.id == |logs| + 1
    ensures LedgerWellFormed(users[i := users[i].(points := users[i].points + e.points)], logs + [e])
  {
    ReconciledAfterEntry(users, logs, i, e);
  }

  /** Inserting a user with an untaken username, the next id and balance 0 keeps the ledger well formed. */
  lemma LedgerAfterInsert(users: seq<User>, logs: seq<PointLog>, u: User)
    requires LedgerWellFormed(users, logs)
    requires u.id == |users| + 1 && u.points == 0 && !UsernameTaken(users, u.username)
    ensures LedgerWellFormed(users + [u], logs)
  {
    ReconciledAfterInsert(users, logs, u);
    var users' := users + [u];
    forall i, j | 0 <= i < j < |users'|
      ensures users'[i].username != users'[j].username
    {
      if j == |users| {
        assert users[i].username != u.username;
      }
    }
  }

  /* ---------- price entries, sites, files ---------- */

  /** The unique `FileUrl` of models/points.go:20 is the key of the price table. */
  predicate ConfigsWellFormed(configs: map<string, PointConfig>, nextConfigId: nat) {
    1 <= nextConfigId &&
    forall url :: url in configs ==> configs[url].fileUrl == url && 1 <= configs[url].id < nextConfigId
  }

  /** Site ids are 1, 2, ... and domains are unique (models/site.go:9). */
  predicate SitesWellFormed(sites: seq<Site>) {
    && (forall i :: 0 <= i < |sites| ==> sites[i].id == i + 1)
    && (forall i, j :: 0 <= i < j < |sites| ==> sites[i].domain != sites[j].domain)
  }

  predicate FilesWellFormed(files: seq<File>) {
    forall i :: 0 <= i < |files| ==> files[i].id == i + 1
  }

  /** The tables of the gateway's database, updated in place by the handlers. */
  class Database {
    var users: seq<User>
    var configs: map<string, PointConfig>
    var nextConfigId: nat
    var logs: seq<PointLog>
    var sites: seq<Site>
    var files: seq<File>

    ghost predicate Valid()
      reads this
    {
      && LedgerWellFormed(users, logs)
      && ConfigsWellFormed(configs, nextConfigId)
      && SitesWellFormed(sites)
      && FilesWellFormed(files)
    }

    constructor ()
      ensures Valid()
      ensures users == [] && configs == map[] && logs == [] && sites == [] && files == []
    {
      users, configs, nextConfigId, logs, sites, files := [], map[], 1, [], [], [];
    }
  }
}

/**
  The file list of a site (api/file_api.go): paging parameters, the listing
  of the most recent uploads with each file's price attached, the record of a
  new upload and the download counter.
 */
module FileApi {
  import opened Common
  import opened Text
  import opened Models
  import opened Store

  const DefaultFileLimit: nat := 10
  const MaxFileLimit: nat := 100

  /**
    The `limit` query parameter (absent means "10"): an integer in 1..100 is
    kept, anything else becomes 10.
   */
  function ClampLimit(limitQ: Option<string>): (limit: nat)
    ensures 1 <= limit <= MaxFileLimit
    ensures var s := if limitQ.Some? then limitQ.value else "10";
            Atoi(s).Some? && 1 <= Atoi(s).value <= MaxFileLimit ==> limit == Atoi(s).value
    ensures var s := if limitQ.Some? then limitQ.value else "10";
            Atoi(s).None? || Atoi(s).value <= 0 || Atoi(s).value > MaxFileLimit ==> limit == DefaultFileLimit
  {
    var s := if limitQ.Some? then limitQ.value else "10";
    match Atoi(s)
    case Some(l) => if l <= 0 || l > MaxFileLimit then DefaultFileLimit else l
    case None => DefaultFileLimit
  }

  /** The `offset` query parameter (absent means "0"): a non-negative integer is kept, anything else becomes 0. */
  function ClampOffset(offsetQ: Option<string>): (offset: nat)
    ensures var s := if offsetQ.Some? then offsetQ.value else "0";
            Atoi(s).Some? && Atoi(s).value >= 0 ==> offset == Atoi(s).value
    ensures var s := if offsetQ.Some? then offsetQ.value else "0";
            Atoi(s).None? || Atoi(s).value < 0 ==> offset == 0
  {
    var s := if offsetQ.Some? then offsetQ.value else "0";
    match Atoi(s)
    case Some(o) => if o < 0 then 0 else o
    case None => 0
  }

  /** A limit in range written in decimal, and any non-negative 64-bit offset, are taken as given. */
  lemma PagingReadsDecimal(limit: int, offset: int)
    requires 1 <= limit <= MaxFileLimit
    requires 0 <= offset <= MaxInt64
    ensures ClampLimit(Some(Itoa(limit))) == limit
    ensures ClampOffset(Some(Itoa(offset))) == offset
  {
    AtoiItoa(limit);
    AtoiItoa(offset);
  }

  /* ---------- GetRecentFiles ---------- */

  const NoSite: Failure := Failure(StatusInternalServerError, "无法获取站点信息")

  function FileId(f: File): int { f.id }

  /**
    The price attached to a listed file: the entry of its path, or the zero
    entry (0 points) when the path has none. Price entries have no site column,
    so the site plays no part.
   */
  function AttachedConfig(configs: map<string, PointConfig>, path: string): (c: PointConfig)
    ensures path in configs ==> c == configs[path]
    ensures path !in configs ==> c == NoConfig && c.points == 0
  {
    if path in configs then configs[path] else NoConfig
  }

  /**
    The lookup as api/file_api.go:57 writes it filters point_configs on
    `site_id` and `path`, columns that table does not have (its path column is
    `file_url`); the query fails, which is not "record not found", so every
    file gets `PointConfig{Points: 0}`.
   */
  function AttachedConfigAsWritten(configs: map<string, PointConfig>, siteId: nat, path: string): (c: PointConfig)
    ensures c.points == 0
  {
    PointConfig(0, "", 0, "")
  }

  /** With a priced entry for a path, the lookup as written loses the price the intended lookup attaches. */
  lemma AttachAsWrittenLosesPrice()
    ensures var configs := map["docs/a.zip" := PointConfig(1, "docs/a.zip", 5, "")];
            && AttachedConfigAsWritten(configs, 1, "docs/a.zip").points == 0
            && AttachedConfig(configs, "docs/a.zip").points == 5
  {
  }

  /** The `site_id = ?` filter of the listing. */
  function OfSite(siteId: nat): File -> bool {
    (f: File) => f.siteId == siteId
  }

  /**
    The rows the query returns: of the site's files listed newest upload first,
    the window [offset, offset + limit), clipped to what exists.
   */
  function RecentFiles(files: seq<File>, siteId: nat, offset: nat, limit: nat): (page: seq<File>)
    ensures var listed := NewestFirst(files, OfSite(siteId));
            && |page| == (if offset > |listed| then 0
                          else if limit < |listed| - offset then limit
                          else |listed| - offset)
            && forall i :: 0 <= i < |page| ==> page[i] == listed[offset + i]
    ensures |page| <= limit
    ensures forall f :: f in page ==> f in files && f.siteId == siteId
    ensures Ascending(files, FileId) ==> Descending(page, FileId)
  {
    var listed := NewestFirst(files, OfSite(siteId));
    WindowMembers(listed, offset, limit);
    WindowOfNewestFirst(files, OfSite(siteId), offset, limit, FileId);
    Window(listed, offset, limit)
  }

  /** Cut from a listing of rows written with increasing keys, a window has decreasing keys. */
  lemma WindowOfNewestFirst<T(!new)>(rows: seq<T>, keep: T -> bool, offset: nat, n: nat, key: T -> int)
    ensures Ascending(rows, key) ==> Descending(Window(NewestFirst(rows, keep), offset, n), key)
  {
    if Ascending(rows, key) {
      NewestFirstDescending(rows, keep, key);
      WindowKeepsOrder(NewestFirst(rows, keep), offset, n, key);
    }
  }

  /** A window holds only rows of the listing it is cut from. */
  lemma WindowMembers<T>(rows: seq<T>, offset: nat, n: nat)
    ensures forall x :: x in Window(rows, offset, n) ==> x in rows
  {
    var w := Window(rows, offset, n);
    forall x | x in w
      ensures x in rows
    {
      var i :| 0 <= i < |w| && w[i] == x;
      assert rows[offset + i] == x;
    }
  }

  /** A window of a listing with decreasing keys still has decreasing keys. */
  lemma WindowKeepsOrder<T>(rows: seq<T>, offset: nat, n: nat, key: T -> int)
    requires Descending(rows, key)
    ensures Descending(Window(rows, offset, n), key)
  {
    var w := Window(rows, offset, n);
    if offset <= |rows| {
      forall i, j | 0 <= i < j < |w|
        ensures key(w[i]) > key(w[j])
      {
        assert w[i] == rows[offset + i] && w[j] == rows[offset + j];
      }
    }
  }

  /** The listed files with their price entries attached. */
  predicate AttachedAll(page: seq<File>, configs: map<string, PointConfig>, listed: seq<File>) {
    && |listed| == |page|
    && forall i :: 0 <= i < |page| ==> listed[i] == page[i].(pointConfig := AttachedConfig(configs, page[i].path))
  }

  /** The loop over the query's rows that sets each row's price entry in place. */
  method AttachConfigs(page: seq<File>, configs: map<string, PointConfig>) returns (listed: seq<File>)
    ensures AttachedAll(page, configs, listed)
  {
    var rows := new File[|page|](i requires 0 <= i < |page| => page[i]);
    for i := 0 to rows.Length
      invariant forall k :: 0 <= k < i ==> rows[k] == page[k].(pointConfig := AttachedConfig(configs, page[k].path))
      invariant forall k :: i <= k < rows.Length ==> rows[k] == page[k]
    {
      rows[i] := rows[i].(pointConfig := AttachedConfig(configs, rows[i].path));
    }
    listed := rows[..];
  }

  /**
    `GetRecentFiles`: with no site in the request context nothing is listed;
    otherwise the page of the site's most recent uploads, each with its price
    entry attached.
   */
  method GetRecentFiles(site: Option<Site>, files: seq<File>, configs: map<string, PointConfig>,
                        limitQ: Option<string>, offsetQ: Option<string>)
    returns (r: Result<seq<File>>)
    ensures site.None? <==> r == Err(NoSite)
    ensures site.Some? ==> r.Ok?
    ensures r.Ok? ==>
              AttachedAll(RecentFiles(files, site.value.id, ClampOffset(offsetQ), ClampLimit(limitQ)), configs, r.value)
  {
    if site.None? {
      return Err(NoSite);
    }
    var page := RecentFiles(files, site.value.id, ClampOffset(offsetQ), ClampLimit(limitQ));
    var listed := AttachConfigs(page, configs);
    return Ok(listed);
  }

  /* ---------- RecordFileUpload ---------- */

  /** `RecordFileUpload`: one new row with exactly the given fields and no downloads yet. */
  method RecordFileUpload(db: Database, siteId: nat, path: string, name: string, size: int, contentType: string)
    returns (file: File)
    requires db.Valid()
    modifies db
    ensures db.Valid()
    ensures file == File(|old(db.files)| + 1, siteId, path, name, size, contentType, 0, NoConfig)
    ensures db.files == old(db.files) + [file]
    ensures db.users == old(db.users) && db.logs == old(db.logs)
    ensures db.configs == old(db.configs) && db.nextConfigId == old(db.nextConfigId) && db.sites == old(db.sites)
  {
    file := File(|db.files| + 1, siteId, path, name, size, contentType, 0, NoConfig);
    db.files := db.files + [file];
  }

  /* ---------- UpdateFileDownloadCount ---------- */

  predicate IsFileAt(f: File, siteId: nat, path: string) {
    f.siteId == siteId && f.path == path
  }

  /** The table after `downloads = downloads + 1` on the rows of (site, path). */
  function BumpDownloads(files: seq<File>, siteId: nat, path: string): (r: seq<File>)
    ensures |r| == |files|
    ensures forall i :: 0 <= i < |files| && IsFileAt(files[i], siteId, path) ==>
              r[i] == files[i].(downloads := files[i].downloads + 1)
    ensures forall i :: 0 <= i < |files| && !IsFileAt(files[i], siteId, path) ==> r[i] == files[i]
  {
    if files == [] then []
    else
      var f := files[0];
      var rest := BumpDownloads(files[1..], siteId, path);
      (if IsFileAt(f, siteId, path) then [f.(downloads := f.downloads + 1)] else [f]) + rest
  }

  function TotalDownloads(files: seq<File>): int {
    if files == [] then 0 else files[0].downloads + TotalDownloads(files[1..])
  }

  function CountAt(files: seq<File>, siteId: nat, path: string): nat {
    if files == [] then 0
    else (if IsFileAt(files[0], siteId, path) then 1 else 0) + CountAt(files[1..], siteId, path)
  }

  /** Counting a download raises the table's total by the number of rows at that (site, path). */
  lemma {:induction false} BumpDownloadsTotal(files: seq<File>, siteId: nat, path: string)
    ensures TotalDownloads(BumpDownloads(files, siteId, path)) == TotalDownloads(files) + CountAt(files, siteId, path)
  {
    if files != [] {
      var r := BumpDownloads(files, siteId, path);
      assert r[1..] == BumpDownloads(files[1..], siteId, path);
      BumpDownloadsTotal(files[1..], siteId, path);
    }
  }

  /** `UpdateFileDownloadCount`: the rows of (site, path) gain one download each; nothing else changes. */
  method UpdateFileDownloadCount(db: Database, siteId: nat, path: string)
    requires db.Valid()
    modifies db
    ensures db.Valid()
    ensures db.files == BumpDownloads(old(db.files), siteId, path)
    ensures db.users == old(db.users) && db.logs == old(db.logs)
    ensures db.configs == old(db.configs) && db.nextConfigId == old(db.nextConfigId) && db.sites == old(db.sites)
  {
    db.files := BumpDownloads(db.files, siteId, path);
  }
}

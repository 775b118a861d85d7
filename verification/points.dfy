/**
  The file-info query (api/points.go): the price entry of one path, with the
  file name cut from the path. Unlike the spend, a path without an entry has
  no default price here.
 */
module Points {
  import opened Common
  import opened Text
  import opened Models
  import opened PointApi

  /** The payload of a successful query. */
  datatype FileInfo = FileInfo(fileName: string, points: int, fileUrl: string, description: string)

  const FileUrlRequired: Failure := Failure(StatusBadRequest, "文件URL不能为空")
  const ConfigNotFound: Failure := Failure(StatusNotFound, "未找到该文件的积分配置")

  /**
    The text after the last '/', or the whole path when it has none: a suffix
    of the path holding no '/', preceded by a '/' whenever it is not the whole
    path.
   */
  function FileNameOf(path: string): (name: string)
    ensures |name| <= |path| && name == path[|path| - |name|..]
    ensures forall k :: 0 <= k < |name| ==> name[k] != '/'
    ensures |name| < |path| ==> path[|path| - |name| - 1] == '/'
  {
    var k := LastIndexOf(path, '/');
    if k >= 0 then
      var name := path[k + 1..];
      assert |path| - |name| - 1 == k;
      assert forall j :: 0 <= j < |name| ==> name[j] == path[k + 1 + j];
      name
    else path
  }

  /** A name written after a directory and a '/' is read back unchanged. */
  lemma FileNameOfJoined(dir: string, name: string)
    requires forall k :: 0 <= k < |name| ==> name[k] != '/'
    ensures FileNameOf(dir + "/" + name) == name
  {
    var path := dir + "/" + name;
    var r := FileNameOf(path);
    assert path[|dir|] == '/';
    assert |r| == |name|;
  }

  /**
    `GetFileInfo`: an empty parameter (checked before trimming) is a bad
    request; otherwise the normalised path must have a price entry, whose
    points, path and description are returned with the file name.
   */
  function GetFileInfo(configs: map<string, PointConfig>, rawUrl: string): (r: Result<FileInfo>)
    ensures rawUrl == "" ==> r == Err(FileUrlRequired)
    ensures rawUrl != "" ==> (r.Ok? <==> NormalizePath(rawUrl) in configs)
    ensures rawUrl != "" && r.Err? ==> r.failure == ConfigNotFound
    ensures r.Ok? ==> var c := configs[NormalizePath(rawUrl)];
                      && r.value.points == c.points
                      && r.value.fileUrl == c.fileUrl
                      && r.value.description == c.description
                      && r.value.fileName == FileNameOf(NormalizePath(rawUrl))
  {
    if rawUrl == "" then Err(FileUrlRequired)
    else
      var path := NormalizePath(rawUrl);
      if path !in configs then Err(ConfigNotFound)
      else
        var c := configs[path];
        Ok(FileInfo(FileNameOf(path), c.points, c.fileUrl, c.description))
  }

  /**
    Once a path is configured, the query for the same spelling reports the
    configured points and description under the normalised path.
   */
  lemma ConfiguredInfo(configs: map<string, PointConfig>, nextConfigId: nat,
                       rawUrl: string, points: int, description: string)
    requires Store.ConfigsWellFormed(configs, nextConfigId)
    requires rawUrl != ""
    ensures var after := Configured(configs, nextConfigId, NormalizePath(rawUrl), points, description).0;
            var info := GetFileInfo(after, rawUrl);
            && info.Ok?
            && info.value.points == points
            && info.value.description == description
            && info.value.fileUrl == NormalizePath(rawUrl)
  {
  }
}

/**
 * The deterministic parts of the release script: version and artifact
 * names, the upload plan and its remote target, the rewrite of the
 * documentation's `conf.py` and of the website's `_config.yml`, and the
 * exit-code check around shell commands.
 */
module ReleaseJars {
  import opened Wrappers
  import opened TextFormat

  /** The version record read from the build-number store. */
  datatype Version = Version(major: int, minor: int, build: int)

  // ---------------------------------------------------------------------
  // Version and file names

  /** `get_version_string`: "major.minor.build". */
  function VersionString(v: Version): string {
    IntToString(v.major) + "." + IntToString(v.minor) + "." + IntToString(v.build)
  }

  /** "major.minor": the remote folder of a release line. */
  function MajorMinor(v: Version): string {
    IntToString(v.major) + "." + IntToString(v.minor)
  }

  function ParseVersion(s: string): Option<Version> {
    match SplitAtFirst(s, '.')
    case None => None
    case Some(p) =>
      match SplitAtFirst(p.1, '.')
      case None => None
      case Some(q) =>
        match (ParseInt(p.0), ParseInt(q.0), ParseInt(q.1))
        case (Some(major), Some(minor), Some(build)) => Some(Version(major, minor, build))
        case _ => None
  }

  function ParseMajorMinor(s: string): Option<(int, int)> {
    match SplitAtFirst(s, '.')
    case None => None
    case Some(p) =>
      match (ParseInt(p.0), ParseInt(p.1))
      case (Some(major), Some(minor)) => Some((major, minor))
      case _ => None
  }

  lemma NoDotInIntToString(i: int)
    ensures '.' !in IntToString(i) && '/' !in IntToString(i)
  {
  }

  /** The version string is three decimal numbers joined by single dots: it reads back as the version. */
  lemma VersionStringRoundTrip(v: Version)
    ensures ParseVersion(VersionString(v)) == Some(v)
  {
    var a, b, c := IntToString(v.major), IntToString(v.minor), IntToString(v.build);
    NoDotInIntToString(v.major);
    NoDotInIntToString(v.minor);
    assert VersionString(v) == a + ['.'] + (b + ['.'] + c);
    SplitAtFirstOfJoin(a, '.', b + ['.'] + c);
    SplitAtFirstOfJoin(b, '.', c);
    ParseIntOfIntToString(v.major);
    ParseIntOfIntToString(v.minor);
    ParseIntOfIntToString(v.build);
  }

  lemma VersionStringInjective(v: Version, w: Version)
    ensures VersionString(v) == VersionString(w) <==> v == w
  {
    VersionStringRoundTrip(v);
    VersionStringRoundTrip(w);
  }

  lemma MajorMinorRoundTrip(v: Version)
    ensures ParseMajorMinor(MajorMinor(v)) == Some((v.major, v.minor))
    ensures VersionString(v) == MajorMinor(v) + "." + IntToString(v.build)
  {
    NoDotInIntToString(v.major);
    SplitAtFirstOfJoin(IntToString(v.major), '.', IntToString(v.minor));
    ParseIntOfIntToString(v.major);
    ParseIntOfIntToString(v.minor);
  }

  /** `get_cli_zip_filename`: the platform argument is ignored. */
  function CliZipFilename(platform: Option<string>, v: Version): string {
    "verdict-cli-" + VersionString(v) + ".zip"
  }

  /** The staging folder of `zip_command_line_interface`. */
  function CliFolderName(v: Version): string {
    "verdict-cli-" + VersionString(v)
  }

  const CliPrefix: string := "verdict-cli-"
  const ZipSuffix: string := ".zip"

  /** Reads the version back out of a CLI archive name. */
  function ParseCliZipFilename(s: string): Option<Version> {
    if StartsWith(s, CliPrefix) && |s| >= |CliPrefix| + |ZipSuffix| && s[|s| - |ZipSuffix|..] == ZipSuffix
    then ParseVersion(s[|CliPrefix|..|s| - |ZipSuffix|])
    else None
  }

  /**
   * The archive is the staging folder's name plus ".zip", whatever the
   * platform, and it names its version unambiguously.
   */
  lemma CliNamesAgree(platform: Option<string>, v: Version)
    ensures CliZipFilename(platform, v) == CliFolderName(v) + ZipSuffix
    ensures CliZipFilename(platform, v) == CliZipFilename(None, v)
    ensures ParseCliZipFilename(CliZipFilename(platform, v)) == Some(v)
  {
    var s := CliZipFilename(platform, v);
    assert s[..|CliPrefix|] == CliPrefix;
    assert s[|s| - |ZipSuffix|..] == ZipSuffix;
    assert s[|CliPrefix|..|s| - |ZipSuffix|] == VersionString(v);
    VersionStringRoundTrip(v);
  }

  function SparkJarName(v: Version): string {
    "verdict-spark-lib-" + VersionString(v) + ".jar"
  }

  function JdbcJarName(v: Version): string {
    "verdict-jdbc-" + VersionString(v) + ".jar"
  }

  lemma NoSlashInNames(v: Version)
    ensures '/' !in VersionString(v)
    ensures '/' !in SparkJarName(v) && '/' !in JdbcJarName(v) && '/' !in CliZipFilename(None, v)
  {
    NoDotInIntToString(v.major);
    NoDotInIntToString(v.minor);
    NoDotInIntToString(v.build);
  }

  // ---------------------------------------------------------------------
  // Upload plan and target

  /** `os.path.join` of two components. */
  function PathJoin(dir: string, name: string): string {
    if StartsWith(name, "/") then name
    else if dir == [] || dir[|dir| - 1] == '/' then dir + name
    else dir + "/" + name
  }

  /** The jar directory, next to the script's directory. */
  function JarsDir(scriptDir: string): string {
    PathJoin(scriptDir, "../jars")
  }

  /** `get_path_to_files_to_upload`, as a value: spark jar, jdbc jar, CLI archive. */
  function UploadPlan(scriptDir: string, v: Version): seq<string> {
    [PathJoin(JarsDir(scriptDir), SparkJarName(v)),
     PathJoin(JarsDir(scriptDir), JdbcJarName(v)),
     CliZipFilename(None, v)]
  }

  /** Builds the plan by appending, in the order the files are uploaded. */
  method GetPathsToFilesToUpload(scriptDir: string, v: Version) returns (paths: seq<string>)
    ensures paths == UploadPlan(scriptDir, v)
    ensures |paths| == 3
    ensures paths[0] == JarsDir(scriptDir) + "/" + SparkJarName(v)
    ensures paths[1] == JarsDir(scriptDir) + "/" + JdbcJarName(v)
    ensures paths[2] == CliZipFilename(None, v)
  {
    paths := [];
    var jarsDir := PathJoin(scriptDir, "../jars");
    paths := paths + [PathJoin(jarsDir, "verdict-spark-lib-" + VersionString(v) + ".jar")];
    paths := paths + [PathJoin(jarsDir, "verdict-jdbc-" + VersionString(v) + ".jar")];
    paths := paths + [CliZipFilename(None, v)];
    JarsDirShape(scriptDir);
    PathJoinRelative(jarsDir, SparkJarName(v));
    PathJoinRelative(jarsDir, JdbcJarName(v));
  }

  /** Joining a relative name onto a directory that does not end in '/' inserts one separator. */
  lemma PathJoinRelative(dir: string, name: string)
    requires dir != [] && dir[|dir| - 1] != '/'
    requires name != [] && name[0] != '/'
    ensures PathJoin(dir, name) == dir + "/" + name
  {
    assert !StartsWith(name, "/") by {
      assert name[..1] != "/";
    }
  }

  lemma JarsDirShape(scriptDir: string)
    ensures JarsDir(scriptDir) != [] && JarsDir(scriptDir)[|JarsDir(scriptDir)| - 1] == 's'
  {
    var rel := "../jars";
    assert rel[0] == '.';
    assert !StartsWith(rel, "/") by {
      assert rel[..1][0] != "/"[0];
    }
  }

  lemma {:induction false} BasenameOfPlain(s: string)
    requires '/' !in s
    ensures Basename(s) == s
  {
    if s != [] {
      BasenameOfPlain(s[..|s| - 1]);
      assert s[..|s| - 1] + [s[|s| - 1]] == s;
    }
  }

  /** The file names of the plan's entries are the three artifacts of the release. */
  lemma UploadPlanFileNames(scriptDir: string, v: Version)
    ensures Basename(UploadPlan(scriptDir, v)[0]) == SparkJarName(v)
    ensures Basename(UploadPlan(scriptDir, v)[1]) == JdbcJarName(v)
    ensures Basename(UploadPlan(scriptDir, v)[2]) == CliZipFilename(None, v)
  {
    NoSlashInNames(v);
    var dir := JarsDir(scriptDir);
    JarsDirShape(scriptDir);
    PathJoinRelative(dir, SparkJarName(v));
    PathJoinRelative(dir, JdbcJarName(v));
    BasenameOfJoin(dir, SparkJarName(v));
    BasenameOfJoin(dir, JdbcJarName(v));
    BasenameOfPlain(CliZipFilename(None, v));
  }

  const ScpAccount: string := "yongjoop"
  const ScpBaseUrl: string := "frs.sourceforge.net:/home/frs/project/verdict"

  /** The scp destination of `upload_file_to_sourceforge`: a folder per major.minor. */
  function UploadTarget(v: Version): string {
    ScpAccount + "@" + ScpBaseUrl + "/" + MajorMinor(v) + "/"
  }

  /** Two releases upload to the same folder exactly when they share major and minor. */
  lemma UploadTargetFolder(v: Version, w: Version)
    ensures UploadTarget(v) == UploadTarget(w) <==> v.major == w.major && v.minor == w.minor
  {
    MajorMinorRoundTrip(v);
    MajorMinorRoundTrip(w);
    var p := ScpAccount + "@" + ScpBaseUrl + "/";
    if UploadTarget(v) == UploadTarget(w) {
      assert MajorMinor(v) == UploadTarget(v)[|p|..|UploadTarget(v)| - 1];
      assert MajorMinor(w) == UploadTarget(w)[|p|..|UploadTarget(w)| - 1];
    }
  }

  const FailureMessage: string := "shell return code indicates a failure."

  /** `call_with_failure`, given the exit status of the command it ran. */
  function CallWithFailure(returnCode: int): (r: Outcome<string>)
    ensures r.Fail? <==> returnCode != 0
    ensures r.Fail? ==> r.error == FailureMessage
  {
    if returnCode != 0 then Fail(FailureMessage) else Pass
  }

  /**
   * `upload_file_to_sourceforge`; `call` maps the argument vector of a
   * shell command to the exit status it returns.
   */
  function UploadFile(path: string, v: Version, call: seq<string> -> int): (r: Outcome<string>)
    ensures r.Fail? <==> call(["scp", path, UploadTarget(v)]) != 0
  {
    var majorMinor := IntToString(v.major) + "." + IntToString(v.minor);
    var target := ScpAccount + "@" + ScpBaseUrl + "/" + majorMinor + "/";
    CallWithFailure(call(["scp", path, target]))
  }

  // ---------------------------------------------------------------------
  // Documentation conf.py

  const VersionKey: string := "version = "
  const ReleaseKey: string := "release = "

  function VersionLine(versionStr: string): string {
    VersionKey + "u'" + versionStr + "'\n"
  }

  function ReleaseLine(versionStr: string): string {
    ReleaseKey + "u'" + versionStr + "'\n"
  }

  /** One line of `update_verdict_doc`: `re.match` anchors at the start, so the patterns are prefix tests. */
  function RewriteLine(line: string, versionStr: string): string {
    if !StartsWith(line, VersionKey) && !StartsWith(line, ReleaseKey) then line
    else if StartsWith(line, VersionKey) then VersionLine(versionStr)
    else ReleaseLine(versionStr)
  }

  /** The whole rewritten file, line by line. */
  function RewriteDoc(lines: seq<string>, versionStr: string): seq<string> {
    seq(|lines|, k requires 0 <= k < |lines| => RewriteLine(lines[k], versionStr))
  }

  /** The loop of `update_verdict_doc` over the lines read from conf.py. */
  method UpdateDocLines(lines: seq<string>, v: Version) returns (updatedLines: seq<string>)
    ensures updatedLines == RewriteDoc(lines, VersionString(v))
  {
    var versionStr := IntToString(v.major) + "." + IntToString(v.minor) + "." + IntToString(v.build);
    updatedLines := [];
    var i := 0;
    while i < |lines|
      invariant 0 <= i <= |lines|
      invariant |updatedLines| == i
      invariant forall k :: 0 <= k < i ==> updatedLines[k] == RewriteLine(lines[k], versionStr)
    {
      var l := lines[i];
      var result1 := StartsWith(l, VersionKey);
      var result2 := StartsWith(l, ReleaseKey);
      if !result1 && !result2 {
        updatedLines := updatedLines + [l];
      } else if result1 {
        updatedLines := updatedLines + [VersionKey + "u'" + versionStr + "'\n"];
      } else {
        updatedLines := updatedLines + [ReleaseKey + "u'" + versionStr + "'\n"];
      }
      i := i + 1;
    }
  }

  /**
   * Every line keeps its position; lines with neither prefix are unchanged,
   * and every line with one of them, not only the first, becomes the new marker.
   */
  lemma RewriteDocShape(lines: seq<string>, versionStr: string, k: int)
    requires 0 <= k < |lines|
    ensures |RewriteDoc(lines, versionStr)| == |lines|
    ensures !StartsWith(lines[k], VersionKey) && !StartsWith(lines[k], ReleaseKey) ==>
      RewriteDoc(lines, versionStr)[k] == lines[k]
    ensures StartsWith(lines[k], VersionKey) ==>
      RewriteDoc(lines, versionStr)[k] == "version = u'" + versionStr + "'\n"
    ensures StartsWith(lines[k], ReleaseKey) ==>
      RewriteDoc(lines, versionStr)[k] == "release = u'" + versionStr + "'\n"
  {
    assert VersionKey[0] != ReleaseKey[0];
  }

  lemma RewriteLineIdempotent(line: string, versionStr: string)
    ensures RewriteLine(RewriteLine(line, versionStr), versionStr) == RewriteLine(line, versionStr)
  {
    var vl, rl := VersionLine(versionStr), ReleaseLine(versionStr);
    assert vl[..|VersionKey|] == VersionKey;
    assert rl[..|ReleaseKey|] == ReleaseKey;
  }

  /** A second rewrite with the same version changes nothing. */
  lemma RewriteDocIdempotent(lines: seq<string>, versionStr: string)
    ensures RewriteDoc(RewriteDoc(lines, versionStr), versionStr) == RewriteDoc(lines, versionStr)
  {
    forall k | 0 <= k < |lines|
      ensures RewriteDoc(RewriteDoc(lines, versionStr), versionStr)[k] == RewriteDoc(lines, versionStr)[k]
    {
      RewriteLineIdempotent(lines[k], versionStr);
    }
  }

  // ---------------------------------------------------------------------
  // Website _config.yml

  /** A value of the site's configuration: a scalar, a block of scalars, or anything else kept as is. */
  datatype ConfigValue = Text(text: string) | Block(fields: map<string, string>) | Other(raw: string)

  type SiteConfig = map<string, ConfigValue>

  const SiteKeys: set<string> := {"url", "version", "verdict_spark", "verdict_jdbc", "verdict_shell"}
  const SiteUrl: string := "http://verdictdb.org/"
  const DownloadBaseUrl: string := "https://sourceforge.net/projects/verdict/files"

  /** The download folder of a release line. */
  function SourceForgeUrl(v: Version): string {
    DownloadBaseUrl + "/" + MajorMinor(v)
  }

  function DownloadLink(v: Version, fileName: string): string {
    SourceForgeUrl(v) + "/" + fileName + "/download"
  }

  function ArtifactBlock(family: string, name: string, url: string): ConfigValue {
    Block(map["family" := family, "name" := name, "url" := url])
  }

  /** The configuration `update_verdict_site` writes back. */
  function SiteUpdate(y: SiteConfig, v: Version): SiteConfig {
    y["url" := Text(SiteUrl)]
     ["version" := Text(VersionString(v))]
     ["verdict_spark" := ArtifactBlock("Verdict Spark Library", SparkJarName(v), DownloadLink(v, SparkJarName(v)))]
     ["verdict_jdbc" := ArtifactBlock("Verdict JDBC Driver", SparkJarName(v), DownloadLink(v, JdbcJarName(v)))]
     ["verdict_shell" := ArtifactBlock("Command Line Interface (including Verdict JDBC Driver)",
                                       CliFolderName(v) + ".jar", DownloadLink(v, CliZipFilename(None, v)))]
  }

  /** Updates the loaded mapping in place: two scalars, then three freshly built blocks. */
  method UpdateSiteConfig(y: SiteConfig, v: Version) returns (updated: SiteConfig)
    ensures updated == SiteUpdate(y, v)
    ensures updated.Keys == y.Keys + SiteKeys
    ensures forall key :: key in y && key !in SiteKeys ==> updated[key] == y[key]
  {
    var sfUrl := SourceForgeUrl(v);
    var versionStr := VersionString(v);
    updated := y;
    updated := updated["url" := Text("http://verdictdb.org/")];
    updated := updated["version" := Text(versionStr)];

    var yspark: map<string, string> := map[];
    yspark := yspark["family" := "Verdict Spark Library"];
    yspark := yspark["name" := SparkJarName(v)];
    yspark := yspark["url" := sfUrl + "/" + SparkJarName(v) + "/download"];
    updated := updated["verdict_spark" := Block(yspark)];

    var yjdbc: map<string, string> := map[];
    yjdbc := yjdbc["family" := "Verdict JDBC Driver"];
    yjdbc := yjdbc["name" := SparkJarName(v)];
    yjdbc := yjdbc["url" := sfUrl + "/" + JdbcJarName(v) + "/download"];
    updated := updated["verdict_jdbc" := Block(yjdbc)];

    var yshell: map<string, string> := map[];
    yshell := yshell["family" := "Command Line Interface (including Verdict JDBC Driver)"];
    yshell := yshell["name" := "verdict-cli-" + versionStr + ".jar"];
    yshell := yshell["url" := sfUrl + "/" + CliZipFilename(None, v) + "/download"];
    updated := updated["verdict_shell" := Block(yshell)];
  }

  /** The version field reads back as the released version. */
  lemma SiteVersionField(y: SiteConfig, v: Version)
    ensures SiteUpdate(y, v)["version"].Text?
    ensures ParseVersion(SiteUpdate(y, v)["version"].text) == Some(v)
  {
    VersionStringRoundTrip(v);
  }

  /**
   * Every download link points at the file name of an entry of the upload
   * plan: spark jar, jdbc jar, CLI archive.
   */
  lemma SiteLinksPointAtUploads(y: SiteConfig, v: Version, scriptDir: string)
    ensures SiteUpdate(y, v)["verdict_spark"].fields["url"] == DownloadLink(v, Basename(UploadPlan(scriptDir, v)[0]))
    ensures SiteUpdate(y, v)["verdict_jdbc"].fields["url"] == DownloadLink(v, Basename(UploadPlan(scriptDir, v)[1]))
    ensures SiteUpdate(y, v)["verdict_shell"].fields["url"] == DownloadLink(v, Basename(UploadPlan(scriptDir, v)[2]))
  {
    UploadPlanFileNames(scriptDir, v);
  }

  /** The download folder of the links is the folder the scp target uploads to. */
  lemma RemoteFolderAgrees(v: Version)
    ensures SourceForgeUrl(v) == DownloadBaseUrl + "/" + MajorMinor(v)
    ensures UploadTarget(v) == ScpAccount + "@" + ScpBaseUrl + "/" + SourceForgeUrl(v)[|DownloadBaseUrl| + 1..] + "/"
  {
    assert SourceForgeUrl(v)[|DownloadBaseUrl| + 1..] == MajorMinor(v);
  }

  /**
   * The names the site shows are not all the names it links to: the JDBC
   * block repeats the spark jar's name, and the shell block names a ".jar"
   * while its link, and the uploaded archive, end in ".zip".
   */
  lemma SiteBlockNames(y: SiteConfig, v: Version)
    ensures SiteUpdate(y, v)["verdict_jdbc"].fields["name"] == SiteUpdate(y, v)["verdict_spark"].fields["name"]
    ensures SiteUpdate(y, v)["verdict_jdbc"].fields["name"] != JdbcJarName(v)
    ensures SiteUpdate(y, v)["verdict_shell"].fields["name"] != CliZipFilename(None, v)
  {
    var s, j := SparkJarName(v), JdbcJarName(v);
    assert s[8] == 's' && j[8] == 'j';
    var n, z := CliFolderName(v) + ".jar", CliZipFilename(None, v);
    assert n[|n| - 1] == 'r' && z[|z| - 1] == 'p';
  }
}

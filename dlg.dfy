/**
 * The storage and alerting helpers: `save_to_gcs`, which checks the local file, names the
 * timestamped and "latest" objects and uploads them, and `send_slack_notification`, which
 * builds one attachment and posts it to a webhook.
 *
 * The clock, the storage client and the webhook are inputs: the timestamp arrives as a
 * string, an upload that raises is named by its position, and the post's outcome is a flag.
 */
module Dlg {
  import opened Wrappers
  import opened Text

  /** The settings read from the environment when the helpers load. */
  datatype DlgConfig = DlgConfig(platformId: string, folder: string, bucket: string)

  /** `PLATFORM_ID`, `GCS_FOLDER` and `GCS_BUCKET`, with their defaults. */
  function DlgConfigFrom(env: map<string, string>): DlgConfig {
    DlgConfig(
      if "PLATFORM_ID" in env then env["PLATFORM_ID"] else "example",
      if "GCS_FOLDER" in env then env["GCS_FOLDER"] else "example",
      if "GCS_BUCKET" in env then env["GCS_BUCKET"] else "market-place-dev")
  }

  // ---------------------------------------------------------------------------
  // Object names
  // ---------------------------------------------------------------------------

  /** Python truthiness of an optional string: set and not empty. */
  predicate Truthy(s: Option<string>) {
    s.Some? && s.value != ""
  }

  /** The part of an object name before its stamp: `"{prefix}_{platform}_"` or `"{platform}_"`. */
  function NameHead(platformId: string, prefix: Option<string>): string {
    if Truthy(prefix) then prefix.value + "_" + platformId + "_" else platformId + "_"
  }

  /**
   * An object name: the head, then `stamp`, then `"." + extension`. The timestamped name
   * has the date as its stamp and the "latest" name has the word `latest`.
   */
  function ObjectName(platformId: string, prefix: Option<string>, stamp: string, extension: string): (r: string)
    ensures |r| == |NameHead(platformId, prefix)| + |stamp| + 1 + |extension|
    ensures r[..|NameHead(platformId, prefix)|] == NameHead(platformId, prefix)
    ensures r[|NameHead(platformId, prefix)|..|NameHead(platformId, prefix)| + |stamp|] == stamp
    ensures r[|r| - |extension| - 1..] == "." + extension
  {
    var head := NameHead(platformId, prefix);
    var r := head + stamp + "." + extension;
    assert r[..|head|] == head;
    assert r[|head|..|head| + |stamp|] == stamp;
    assert r[|r| - |extension| - 1..] == "." + extension;
    r
  }

  /** The timestamped file name. */
  function Filename(platformId: string, prefix: Option<string>, dateStr: string, extension: string): string {
    ObjectName(platformId, prefix, dateStr, extension)
  }

  /** The "latest" file name. */
  function LatestFilename(platformId: string, prefix: Option<string>, extension: string): string {
    ObjectName(platformId, prefix, "latest", extension)
  }

  /** Two names with the same head and extension are equal exactly when their stamps are. */
  lemma ObjectNameInjective(platformId: string, prefix: Option<string>, s1: string, s2: string, extension: string)
    ensures ObjectName(platformId, prefix, s1, extension) == ObjectName(platformId, prefix, s2, extension)
        <==> s1 == s2
  {
    var head := NameHead(platformId, prefix);
    var n1, n2 := ObjectName(platformId, prefix, s1, extension), ObjectName(platformId, prefix, s2, extension);
    if n1 == n2 {
      assert |s1| == |s2|;
      assert s1 == n1[|head|..|head| + |s1|] == n2[|head|..|head| + |s2|] == s2;
    }
  }

  /** The timestamped name is the "latest" name only for the stamp `latest` itself. */
  lemma FilenameIsNotLatest(platformId: string, prefix: Option<string>, dateStr: string, extension: string)
    ensures Filename(platformId, prefix, dateStr, extension) == LatestFilename(platformId, prefix, extension)
        <==> dateStr == "latest"
  {
    ObjectNameInjective(platformId, prefix, dateStr, "latest", extension);
  }

  /** An empty prefix names objects as no prefix does; a non-empty one starts every name with it. */
  lemma PrefixedNames(platformId: string, prefix: Option<string>, stamp: string, extension: string)
    ensures !Truthy(prefix) ==> ObjectName(platformId, prefix, stamp, extension) == ObjectName(platformId, None, stamp, extension)
    ensures Truthy(prefix) ==>
      var name, p := ObjectName(platformId, prefix, stamp, extension), prefix.value + "_";
      |p| <= |name| && name[..|p|] == p
  {
    if Truthy(prefix) {
      var head := NameHead(platformId, prefix);
      var name, p := ObjectName(platformId, prefix, stamp, extension), prefix.value + "_";
      assert head[..|p|] == p;
      assert name[..|p|] == head[..|p|];
    }
  }

  // ---------------------------------------------------------------------------
  // save_to_gcs
  // ---------------------------------------------------------------------------

  /** What the local file system holds at a path. */
  datatype PathKind = RegularFile | Directory

  /** Why a save did not return a path. An upload fault carries the exception it raised. */
  datatype SaveError =
    | FileNotFound(message: string)
    | NotAFile(message: string)
    | UploadFailed(objectPath: string)

  /** One upload: a local file copied to an object of the bucket. */
  datatype Upload = Upload(localPath: string, bucket: string, objectPath: string)

  /** What a save did: its result and the uploads that completed, in order. */
  datatype SaveOutcome = SaveOutcome(result: Result<string, SaveError>, uploads: seq<Upload>)

  /** The object path of a file name inside the configured folder. */
  function ObjectPath(cfg: DlgConfig, filename: string): string {
    cfg.folder + "/" + filename
  }

  /** The `gs://` URL of an object path. */
  function GsUrl(cfg: DlgConfig, objectPath: string): string {
    "gs://" + cfg.bucket + "/" + objectPath
  }

  /**
   * `save_to_gcs(file_path, prefix, extension, save_latest)`. A missing path and a path that
   * is not a regular file are refused before anything is uploaded. Otherwise the file goes
   * to the timestamped object and then, when `saveLatest`, to the "latest" object; `failAt`
   * names the upload (0 or 1) that raises, if one does. The result is the timestamped
   * object's URL.
   */
  function SaveToGcs(
    cfg: DlgConfig, fs: map<string, PathKind>, filePath: string, prefix: Option<string>,
    extension: string, saveLatest: bool, dateStr: string, failAt: Option<nat>): (r: SaveOutcome)
    ensures filePath !in fs ==> r == SaveOutcome(Failure(FileNotFound("File not found: " + filePath)), [])
    ensures filePath in fs && fs[filePath] != RegularFile ==>
      r == SaveOutcome(Failure(NotAFile("Not a file: " + filePath)), [])
    ensures r.result.Success? ==>
      && filePath in fs && fs[filePath] == RegularFile
      && r.result.value == GsUrl(cfg, ObjectPath(cfg, Filename(cfg.platformId, prefix, dateStr, extension)))
      && |r.uploads| == (if saveLatest then 2 else 1)
    ensures filePath in fs && fs[filePath] == RegularFile ==>
      var attempts := if saveLatest then 2 else 1;
      && (r.result.Success? <==> !(failAt.Some? && failAt.value < attempts))
      && (r.result.Failure? ==> r.result.error.UploadFailed? && |r.uploads| == failAt.value)
    ensures |r.uploads| <= 2
    ensures forall k :: 0 <= k < |r.uploads| ==> r.uploads[k].localPath == filePath && r.uploads[k].bucket == cfg.bucket
    ensures |r.uploads| >= 1 ==> r.uploads[0].objectPath == ObjectPath(cfg, Filename(cfg.platformId, prefix, dateStr, extension))
    ensures |r.uploads| == 2 ==> saveLatest && r.uploads[1].objectPath == ObjectPath(cfg, LatestFilename(cfg.platformId, prefix, extension))
  {
    if filePath !in fs then SaveOutcome(Failure(FileNotFound("File not found: " + filePath)), [])
    else if fs[filePath] != RegularFile then SaveOutcome(Failure(NotAFile("Not a file: " + filePath)), [])
    else
      var gcsPath := ObjectPath(cfg, Filename(cfg.platformId, prefix, dateStr, extension));
      var latestPath := ObjectPath(cfg, LatestFilename(cfg.platformId, prefix, extension));
      if failAt == Some(0) then SaveOutcome(Failure(UploadFailed(gcsPath)), [])
      else
        var first := [Upload(filePath, cfg.bucket, gcsPath)];
        if !saveLatest then SaveOutcome(Success(GsUrl(cfg, gcsPath)), first)
        else if failAt == Some(1) then SaveOutcome(Failure(UploadFailed(latestPath)), first)
        else SaveOutcome(Success(GsUrl(cfg, gcsPath)), first + [Upload(filePath, cfg.bucket, latestPath)])
  }

  /** The URL a save returns is never that of the "latest" object (unless the date is `latest`). */
  lemma SaveReturnsTimestampedPath(
    cfg: DlgConfig, fs: map<string, PathKind>, filePath: string, prefix: Option<string>,
    extension: string, saveLatest: bool, dateStr: string, failAt: Option<nat>)
    requires dateStr != "latest"
    requires SaveToGcs(cfg, fs, filePath, prefix, extension, saveLatest, dateStr, failAt).result.Success?
    ensures SaveToGcs(cfg, fs, filePath, prefix, extension, saveLatest, dateStr, failAt).result.value
         != GsUrl(cfg, ObjectPath(cfg, LatestFilename(cfg.platformId, prefix, extension)))
  {
    var name := Filename(cfg.platformId, prefix, dateStr, extension);
    var latest := LatestFilename(cfg.platformId, prefix, extension);
    FilenameIsNotLatest(cfg.platformId, prefix, dateStr, extension);
    var front := "gs://" + cfg.bucket + "/" + cfg.folder + "/";
    assert GsUrl(cfg, ObjectPath(cfg, name)) == front + name;
    assert GsUrl(cfg, ObjectPath(cfg, latest)) == front + latest;
    assert (front + name)[|front|..] == name;
    assert (front + latest)[|front|..] == latest;
  }

  // ---------------------------------------------------------------------------
  // send_slack_notification
  // ---------------------------------------------------------------------------

  /** The statuses with their own colour and emoji. */
  const STATUSES: seq<string> := ["success", "warning", "error", "info"]

  /** The attachment colour of a status; any other status gets the "info" colour. */
  function Color(status: string): string {
    if status == "success" then "#36a64f"
    else if status == "warning" then "#ff9800"
    else if status == "error" then "#ff0000"
    else "#2196f3"
  }

  /** The emoji of a status; any other status gets none. */
  function Emoji(status: string): string {
    if status == "success" then "\U{2705}"
    else if status == "warning" then "\U{26A0}\U{FE0F}"
    else if status == "error" then "\U{274C}"
    else if status == "info" then "\U{2139}\U{FE0F}"
    else ""
  }

  /**
   * The four statuses have four different colours and non-empty emoji; every other status
   * looks like "info" but without an emoji.
   */
  lemma StatusStyles(status: string)
    ensures status in STATUSES ==> Emoji(status) != ""
    ensures status !in STATUSES ==> Color(status) == Color("info") && Emoji(status) == ""
    ensures forall i, j :: 0 <= i < j < |STATUSES| ==> Color(STATUSES[i]) != Color(STATUSES[j])
  {
  }

  /** The attachment title: `"{emoji} {platform} - {STATUS}"`. */
  function Title(platformId: string, status: string): string {
    Emoji(status) + " " + platformId + " - " + Upper(status)
  }

  /** A value of the details dictionary: the scraper passes strings and integers. */
  datatype Value = Text(s: string) | Number(n: int)

  /** `str(value)`. */
  function Display(v: Value): string {
    match v
    case Text(s) => s
    case Number(n) => Str(n)
  }

  /** One attachment field. */
  datatype Field = Field(title: string, value: string, short: bool)

  /** The field a details entry becomes: the key, the value's text, and short under 30 characters. */
  function FieldOf(key: string, value: Value): (f: Field)
    ensures f.title == key && f.value == Display(value)
    ensures f.short <==> |f.value| < 30
  {
    var text := Display(value);
    Field(key, text, |text| < 30)
  }

  /**
   * The fields of the attachment: one per details entry, in the dictionary's order.
   * No details (`None` or empty) means no fields.
   */
  method BuildFields(details: Option<seq<(string, Value)>>) returns (fields: seq<Field>)
    ensures details.None? ==> fields == []
    ensures details.Some? ==> |fields| == |details.value|
    ensures details.Some? ==> forall i :: 0 <= i < |fields| ==>
      fields[i] == FieldOf(details.value[i].0, details.value[i].1)
  {
    fields := [];
    if details.Some? {
      var entries := details.value;
      var i := 0;
      while i < |entries|
        invariant 0 <= i <= |entries|
        invariant |fields| == i
        invariant forall k :: 0 <= k < i ==> fields[k] == FieldOf(entries[k].0, entries[k].1)
      {
        var (key, value) := entries[i];
        var text := Display(value);
        fields := fields + [Field(key, text, |text| < 30)];
        i := i + 1;
      }
    }
  }

  /** The attachment posted to the webhook. `ts` is the post time in whole seconds. */
  datatype Attachment = Attachment(color: string, title: string, text: string, ts: int, fields: seq<Field>)

  /** One post to a webhook. */
  datatype Post = Post(webhookUrl: string, attachment: Attachment)

  /** The webhook to use: the argument when it is set and not empty, else `SLACK_WEBHOOK_URL`. */
  function WebhookUrl(argument: Option<string>, env: map<string, string>): Option<string> {
    if Truthy(argument) then argument
    else if "SLACK_WEBHOOK_URL" in env then Some(env["SLACK_WEBHOOK_URL"])
    else None
  }

  /**
   * `send_slack_notification(message, status, details, webhook_url)`. Without a webhook
   * nothing is posted and the result is false. Otherwise one attachment is posted and the
   * result is whether the post succeeded (`postOk`); the function never raises.
   */
  method SendSlackNotification(
    cfg: DlgConfig, env: map<string, string>, message: string, status: string,
    details: Option<seq<(string, Value)>>, webhookUrl: Option<string>, ts: int, postOk: bool)
    returns (sent: bool, post: Option<Post>)
    ensures !Truthy(WebhookUrl(webhookUrl, env)) ==> !sent && post == None
    ensures Truthy(WebhookUrl(webhookUrl, env)) ==> sent == postOk && post.Some?
    ensures post.Some? ==>
      && post.value.webhookUrl == WebhookUrl(webhookUrl, env).value
      && post.value.attachment.color == Color(status)
      && post.value.attachment.title == Title(cfg.platformId, status)
      && post.value.attachment.text == message
      && post.value.attachment.ts == ts
      && |post.value.attachment.fields| == (if details.Some? then |details.value| else 0)
      && (details.Some? ==> forall i :: 0 <= i < |details.value| ==>
            post.value.attachment.fields[i] == FieldOf(details.value[i].0, details.value[i].1))
  {
    var url := WebhookUrl(webhookUrl, env);
    if !Truthy(url) {
      return false, None;
    }
    var fields := BuildFields(details);
    var attachment := Attachment(Color(status), Title(cfg.platformId, status), message, ts, fields);
    post := Some(Post(url.value, attachment));
    sent := postOk;
  }
}

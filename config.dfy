/** The client's configuration object and its helpers (config/api.ts): the
    start-up validation, the REST path builders, the URL helpers and the file
    checks. Numeric settings come from `parseInt`, so each may be NaN. */
module ApiConfig {
  import opened Wrappers
  import opened Text

  /** A `parseInt` result: NaN, or an integer. Every comparison with NaN is
      false. */
  datatype Parsed = NaN | Num(n: int)

  predicate Below(v: Parsed, bound: int) { v.Num? && v.n < bound }
  predicate Above(v: Parsed, bound: int) { v.Num? && v.n > bound }
  predicate Exceeds(v: Parsed, w: Parsed) { v.Num? && w.Num? && v.n > w.n }

  datatype Config = Config(
    apiBaseUrl: string,
    wsBaseUrl: string,
    apiTimeout: Parsed,
    retryAttempts: Parsed,
    defaultPageSize: Parsed,
    maxPageSize: Parsed,
    maxFileSize: Parsed,
    allowedFileTypes: seq<string>,
    isProduction: bool,
    sentryDsn: string,
    enableAnalytics: bool,
    analyticsTrackingId: string)

  /** The configuration when no environment variable is set. */
  const DefaultConfig: Config := Config(
    "http://localhost:8080/api/v1", "ws://localhost:8080/ws",
    Num(30000), Num(3), Num(20), Num(100), Num(10485760),
    ["image/jpeg", "image/png", "image/gif", "image/webp", "application/pdf"],
    true, "", true, "")

  // validateConfig

  /** The five checks' messages, in the order they are made. */
  const ErrorMessages: seq<string> := [
    "API_BASE_URL is required",
    "API_TIMEOUT must be at least 1000ms",
    "RETRY_ATTEMPTS must be between 1 and 10",
    "DEFAULT_PAGE_SIZE must be between 1 and MAX_PAGE_SIZE",
    "MAX_FILE_SIZE must be at least 1KB"]

  /** Whether the configuration fails check `k` (numbered in check order). */
  predicate Fails(c: Config, k: int)
    requires 0 <= k < |ErrorMessages|
  {
    if k == 0 then c.apiBaseUrl == ""
    else if k == 1 then Below(c.apiTimeout, 1000)
    else if k == 2 then Below(c.retryAttempts, 1) || Above(c.retryAttempts, 10)
    else if k == 3 then Below(c.defaultPageSize, 1) || Exceeds(c.defaultPageSize, c.maxPageSize)
    else Below(c.maxFileSize, 1024)
  }

  /** The message check `k` contributes: its message if it fails, else nothing. */
  function Entry(c: Config, k: int): seq<string>
    requires 0 <= k < |ErrorMessages|
  {
    if Fails(c, k) then [ErrorMessages[k]] else []
  }

  /** The errors `validateConfig` collects: the failed checks' messages, in
      check order. */
  function ConfigErrors(c: Config): (errors: seq<string>)
    ensures |errors| <= |ErrorMessages|
  {
    Entry(c, 0) + Entry(c, 1) + Entry(c, 2) + Entry(c, 3) + Entry(c, 4)
  }

  function FailureMessage(errors: seq<string>): string {
    "Configuration validation failed:\n" + Join(errors, "\n")
  }

  const SentryWarning: string := "SENTRY_DSN not configured - error tracking disabled"
  const AnalyticsWarning: string := "ANALYTICS_TRACKING_ID not configured - analytics disabled"

  /** `validateConfig`: collects the failed checks' messages and throws one
      error listing them all; in production it also warns about missing
      optional settings. */
  method ValidateConfig(c: Config) returns (result: Result<(), string>, warnings: seq<string>)
    ensures result == if ConfigErrors(c) == [] then Ok(()) else Err(FailureMessage(ConfigErrors(c)))
    ensures SentryWarning in warnings <==> c.isProduction && c.sentryDsn == ""
    ensures AnalyticsWarning in warnings <==> c.isProduction && c.enableAnalytics && c.analyticsTrackingId == ""
    ensures |warnings| <= 2
  {
    var errors: seq<string> := [];
    if c.apiBaseUrl == "" {
      errors := errors + [ErrorMessages[0]];
    }
    assert errors == Entry(c, 0);
    if Below(c.apiTimeout, 1000) {
      errors := errors + [ErrorMessages[1]];
    }
    assert errors == Entry(c, 0) + Entry(c, 1);
    if Below(c.retryAttempts, 1) || Above(c.retryAttempts, 10) {
      errors := errors + [ErrorMessages[2]];
    }
    assert errors == Entry(c, 0) + Entry(c, 1) + Entry(c, 2);
    if Below(c.defaultPageSize, 1) || Exceeds(c.defaultPageSize, c.maxPageSize) {
      errors := errors + [ErrorMessages[3]];
    }
    assert errors == Entry(c, 0) + Entry(c, 1) + Entry(c, 2) + Entry(c, 3);
    if Below(c.maxFileSize, 1024) {
      errors := errors + [ErrorMessages[4]];
    }
    assert errors == ConfigErrors(c);
    warnings := [];
    assert |SentryWarning| != |AnalyticsWarning|;
    if c.isProduction {
      if c.sentryDsn == "" {
        warnings := warnings + [SentryWarning];
      }
      if c.enableAnalytics && c.analyticsTrackingId == "" {
        warnings := warnings + [AnalyticsWarning];
      }
    }
    if |errors| > 0 {
      result := Err(FailureMessage(errors));
    } else {
      result := Ok(());
    }
  }

  predicate Distinct(s: seq<string>) {
    forall i, j :: 0 <= i < j < |s| ==> s[i] != s[j]
  }

  lemma ErrorMessagesDistinct()
    ensures Distinct(ErrorMessages)
  {
    var m := ErrorMessages;
    assert |m[0]| == 24 && |m[1]| == 35 && |m[2]| == 39 && |m[3]| == 53 && |m[4]| == 34;
  }

  /** A check's message is among the errors exactly when the check fails. */
  lemma ErrorReported(c: Config, k: int)
    requires 0 <= k < |ErrorMessages|
    ensures ErrorMessages[k] in ConfigErrors(c) <==> Fails(c, k)
  {
    ErrorMessagesDistinct();
    var errors := ConfigErrors(c);
    if ErrorMessages[k] in errors {
      var p :| 0 <= p < |errors| && errors[p] == ErrorMessages[k];
      var j :| 0 <= j < 5 && Fails(c, j) && errors[p] == ErrorMessages[j] by {
        MessageSource(c, p);
      }
    }
  }

  /** Every collected message comes from a failed check. */
  lemma MessageSource(c: Config, p: int)
    requires 0 <= p < |ConfigErrors(c)|
    ensures exists j :: 0 <= j < 5 && Fails(c, j) && ConfigErrors(c)[p] == ErrorMessages[j]
  {
    var e0, e1, e2, e3, e4 := Entry(c, 0), Entry(c, 1), Entry(c, 2), Entry(c, 3), Entry(c, 4);
    var m := ConfigErrors(c)[p];
    assert m in e0 || m in e1 || m in e2 || m in e3 || m in e4 by {
      assert m in e0 + e1 + e2 + e3 + e4;
    }
  }

  /** `validateConfig` throws exactly when some check fails. */
  lemma ThrowsIffSomeCheckFails(c: Config)
    ensures ConfigErrors(c) != [] <==> exists i :: 0 <= i < 5 && Fails(c, i)
  {
    if ConfigErrors(c) != [] {
      MessageSource(c, 0);
    } else {
      forall i | 0 <= i < 5 ensures !Fails(c, i) {
        assert |Entry(c, i)| == 0;
      }
    }
  }

  /** The retry-attempts check reports exactly the numbers outside 1..10; a
      NaN passes. */
  lemma RetryAttemptsChecked(c: Config)
    ensures ErrorMessages[2] in ConfigErrors(c) <==>
      c.retryAttempts.Num? && (c.retryAttempts.n < 1 || c.retryAttempts.n > 10)
  {
    ErrorReported(c, 2);
  }

  /** The page-size check reports a default page size below 1 or above the
      maximum, when both are numbers. */
  lemma PageSizeChecked(c: Config)
    ensures ErrorMessages[3] in ConfigErrors(c) <==>
      c.defaultPageSize.Num? &&
      (c.defaultPageSize.n < 1 || (c.maxPageSize.Num? && c.defaultPageSize.n > c.maxPageSize.n))
  {
    ErrorReported(c, 3);
  }

  /** The default configuration passes; so does one whose every numeric
      setting failed to parse. */
  lemma DefaultsAndNaNsPass(c: Config)
    requires c.apiBaseUrl != ""
    requires c.apiTimeout == NaN && c.retryAttempts == NaN && c.defaultPageSize == NaN &&
             c.maxPageSize == NaN && c.maxFileSize == NaN
    ensures ConfigErrors(DefaultConfig) == []
    ensures ConfigErrors(c) == []
  {
  }

  // endpoints

  /** `${prefix}/${id}${suffix}`: the id-based path builders. */
  function IdPath(prefix: string, id: int, suffix: string): (p: string)
    ensures |p| > |prefix| + 1 + |suffix|
    ensures p[..|prefix| + 1] == prefix + "/"
    ensures p[|p| - |suffix|..] == suffix
  {
    prefix + "/" + IntToString(id) + suffix
  }

  /** `tasks.get`, `tasks.update` and `tasks.delete`: the id, in decimal, after "/tasks/". */
  function TaskPath(id: int): (p: string)
    ensures |p| > 7 && p[..7] == "/tasks/"
    ensures ParseInt(p[7..]) == id
  {
    IdPathRoundTrip("/tasks", id, "");
    var p := IdPath("/tasks", id, "");
    assert p[7..] == p[7..|p| - 0];
    p
  }

  /** `tasks.complete`: the id, in decimal, between "/tasks/" and "/complete". */
  function TaskCompletePath(id: int): (p: string)
    ensures |p| > 16 && p[..7] == "/tasks/"
    ensures p[|p| - 9..] == "/complete" && ParseInt(p[7..|p| - 9]) == id
  {
    IdPathRoundTrip("/tasks", id, "/complete");
    IdPath("/tasks", id, "/complete")
  }

  /** `tasks.history`: the id, in decimal, between "/tasks/" and "/history". */
  function TaskHistoryPath(id: int): (p: string)
    ensures |p| > 15 && p[..7] == "/tasks/"
    ensures p[|p| - 8..] == "/history" && ParseInt(p[7..|p| - 8]) == id
  {
    IdPathRoundTrip("/tasks", id, "/history");
    IdPath("/tasks", id, "/history")
  }

  /** `properties.get`, `properties.update` and `properties.delete`: the id, in decimal, after "/properties/". */
  function PropertyPath(id: int): (p: string)
    ensures |p| > 12 && p[..12] == "/properties/"
    ensures ParseInt(p[12..]) == id
  {
    IdPathRoundTrip("/properties", id, "");
    var p := IdPath("/properties", id, "");
    assert p[12..] == p[12..|p| - 0];
    p
  }

  /** `properties.tasks`: the id, in decimal, between "/properties/" and "/tasks". */
  function PropertyTasksPath(id: int): (p: string)
    ensures |p| > 18 && p[..12] == "/properties/"
    ensures p[|p| - 6..] == "/tasks" && ParseInt(p[12..|p| - 6]) == id
  {
    IdPathRoundTrip("/properties", id, "/tasks");
    IdPath("/properties", id, "/tasks")
  }

  /** `properties.maintenance` and `properties.addMaintenance`: the id, in decimal, between "/properties/" and "/maintenance-history". */
  function PropertyMaintenancePath(id: int): (p: string)
    ensures |p| > 32 && p[..12] == "/properties/"
    ensures p[|p| - 20..] == "/maintenance-history" && ParseInt(p[12..|p| - 20]) == id
  {
    IdPathRoundTrip("/properties", id, "/maintenance-history");
    IdPath("/properties", id, "/maintenance-history")
  }

  /** `notifications.markRead`: the id, in decimal, between "/notifications/" and "/read". */
  function NotificationReadPath(id: int): (p: string)
    ensures |p| > 20 && p[..15] == "/notifications/"
    ensures p[|p| - 5..] == "/read" && ParseInt(p[15..|p| - 5]) == id
  {
    IdPathRoundTrip("/notifications", id, "/read");
    IdPath("/notifications", id, "/read")
  }

  /** `notifications.delete`: the id, in decimal, after "/notifications/". */
  function NotificationPath(id: int): (p: string)
    ensures |p| > 15 && p[..15] == "/notifications/"
    ensures ParseInt(p[15..]) == id
  {
    IdPathRoundTrip("/notifications", id, "");
    var p := IdPath("/notifications", id, "");
    assert p[15..] == p[15..|p| - 0];
    p
  }

  /** `files.delete`: the file name is inserted as is. */
  function FilePath(filename: string): (p: string)
    ensures |p| == 7 + |filename| && p[..7] == "/files/" && p[7..] == filename
  {
    "/files/" + filename
  }

  /** The id is read back from between the builder's prefix and suffix. */
  lemma IdPathRoundTrip(prefix: string, id: int, suffix: string)
    ensures var p := IdPath(prefix, id, suffix);
      ParseInt(p[|prefix| + 1..|p| - |suffix|]) == id
  {
    var p := IdPath(prefix, id, suffix);
    assert p[|prefix| + 1..|p| - |suffix|] == IntToString(id);
    IntToStringRoundTrip(id);
  }

  /** A builder never gives two ids the same path. */
  lemma IdPathInjective(prefix: string, suffix: string, a: int, b: int)
    requires IdPath(prefix, a, suffix) == IdPath(prefix, b, suffix)
    ensures a == b
  {
    IdPathRoundTrip(prefix, a, suffix);
    IdPathRoundTrip(prefix, b, suffix);
  }

  // URL and file helpers

  function ApiUrl(c: Config, path: string): (u: string)
    ensures |u| == |c.apiBaseUrl| + |path|
    ensures u[..|c.apiBaseUrl|] == c.apiBaseUrl && u[|c.apiBaseUrl|..] == path
  {
    c.apiBaseUrl + path
  }

  /** `getWsUrl`, whose path defaults to "". */
  function WsUrl(c: Config, path: Option<string>): (u: string)
    ensures path.None? ==> u == c.wsBaseUrl
    ensures path.Some? ==> |u| == |c.wsBaseUrl| + |path.value|
    ensures path.Some? ==> u[..|c.wsBaseUrl|] == c.wsBaseUrl && u[|c.wsBaseUrl|..] == path.value
  {
    c.wsBaseUrl + path.GetOr("")
  }

  predicate IsValidFileType(c: Config, fileType: string) {
    fileType in c.allowedFileTypes
  }

  predicate IsValidFileSize(c: Config, size: int) {
    c.maxFileSize.Num? && size <= c.maxFileSize.n
  }

  /** For every configuration: a type passes iff it is listed, so listing one
      more type admits exactly that type besides the old ones; a size passes
      iff the limit parsed and the size does not exceed it, so a smaller size
      passes whenever a larger one does and a NaN limit rejects every size.
      With the defaults, images and PDFs up to 10 MiB are accepted. */
  lemma FileChecks(c: Config, size: int, smaller: int, fileType: string, extra: string)
    ensures IsValidFileType(c.(allowedFileTypes := c.allowedFileTypes + [extra]), fileType)
            <==> IsValidFileType(c, fileType) || fileType == extra
    ensures IsValidFileSize(c, size) <==> c.maxFileSize.Num? && size <= c.maxFileSize.n
    ensures IsValidFileSize(c, size) && smaller <= size ==> IsValidFileSize(c, smaller)
    ensures c.maxFileSize == NaN ==> !IsValidFileSize(c, size)
    ensures IsValidFileType(DefaultConfig, "application/pdf") && !IsValidFileType(DefaultConfig, "text/plain")
    ensures IsValidFileSize(DefaultConfig, size) <==> size <= 10 * 1024 * 1024
  {
    assert DefaultConfig.allowedFileTypes[4] == "application/pdf";
    assert "text/plain" !in DefaultConfig.allowedFileTypes by {
      forall i | 0 <= i < 5 ensures DefaultConfig.allowedFileTypes[i] != "text/plain" {
        assert DefaultConfig.allowedFileTypes[i][0] != 't';
      }
    }
  }
}

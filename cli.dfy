// The command-line front end: the JSON accumulator, the verbosity gating of
// messages, and the decisions the `sync` and `export fittrackee` commands take
// before and after they call their service.

module Cli {
  import opened Util
  import Configuration
  import Backup

  /** What a command writes: a line to stdout, a line to stderr, or a JSON document to stdout. */
  datatype Echo = Out(text: string) | Err(text: string) | Doc(json: Json)

  /** An exception a service raises: `ValueError` or any other. */
  datatype Raised = ValueError(message: string) | OtherError(message: string)

  /** What a call into a service does: returns a value or raises. */
  datatype Run<T> = Returned(result: T) | Raises(error: Raised)

  // ---------------------------------------------------------------- JSONOutput

  /** `JSONOutput`: a dictionary filled by `set`/`update` and printed by `output` when enabled. */
  class JsonOutput {
    var enabled: bool
    var data: map<string, Json>

    constructor (enabled: bool)
      ensures this.enabled == enabled && data == map[]
    {
      this.enabled := enabled;
      data := map[];
    }

    /** `set`: the key now holds the value, replacing what it held. */
    method Set(key: string, value: Json)
      modifies this
      ensures data == old(data)[key := value] && enabled == old(enabled)
      ensures key in data && data[key] == value
    {
      data := data[key := value];
    }

    /** `update`: every key of `d` takes `d`'s value; the other keys keep theirs. */
    method Update(d: map<string, Json>)
      modifies this
      ensures data == old(data) + d && enabled == old(enabled)
      ensures forall k :: k in d ==> k in data && data[k] == d[k]
      ensures forall k :: k in old(data) && k !in d ==> k in data && data[k] == old(data)[k]
      ensures data.Keys == old(data).Keys + d.Keys
    {
      data := data + d;
    }

    /** `output`: the document printed, if enabled; nothing changes. */
    method Output() returns (printed: seq<Echo>)
      ensures enabled ==> printed == [Doc(JObj(data))]
      ensures !enabled ==> printed == []
    {
      if enabled {
        printed := [Doc(JObj(data))];
      } else {
        printed := [];
      }
    }
  }

  // ---------------------------------------------------------------- message gating

  /** Whether `Context.log` prints a message of the given level. */
  function Shows(jsonOutput: bool, quiet: bool, verbose: int, level: int): (r: bool)
    ensures jsonOutput ==> !r
    ensures !jsonOutput && level == 0 ==> (r <==> !quiet)
    ensures !jsonOutput && level != 0 ==> (r <==> level <= verbose)
  {
    if jsonOutput then false
    else if quiet && level == 0 then false
    else level <= verbose || level == 0
  }

  /** Raising the verbosity never hides a message that was shown. */
  lemma ShowsMonotone(jsonOutput: bool, quiet: bool, verbose: int, more: int, level: int)
    requires verbose <= more
    ensures Shows(jsonOutput, quiet, verbose, level) ==> Shows(jsonOutput, quiet, more, level)
  {
  }

  /** `--quiet` hides only the normal (level 0) messages, never the verbose ones. */
  lemma QuietOnlyNormal(verbose: int, level: int)
    requires level != 0
    ensures Shows(false, true, verbose, level) == Shows(false, false, verbose, level)
  {
  }

  /** The exit code of a command whose service raised. */
  function ExitCode(e: Raised): (code: int)
    ensures code == 1 || code == 2
    ensures code == 2 <==> e.ValueError?
  {
    match e
    case ValueError(_) => 2
    case OtherError(_) => 1
  }

  // ---------------------------------------------------------------- the sync command

  /**
   * What `sync` fetches: an item is included exactly when its `--no-X` flag is
   * absent and the configuration enables it.
   */
  function SyncIncludes(noPhotos: bool, noStreams: bool, noComments: bool, s: Configuration.SyncConfig): (inc: Backup.Includes)
    ensures inc.photos <==> !noPhotos && s.photos
    ensures inc.streams <==> !noStreams && s.streams
    ensures inc.comments <==> !noComments && s.comments
  {
    Backup.Includes(!noPhotos && s.photos, !noStreams && s.streams, !noComments && s.comments)
  }

  /** The dictionary `BackupService.sync` returns, as JSON. */
  function ReportJson(r: Backup.SyncReport): map<string, Json>
  {
    map["athlete" := JStr(r.athlete),
        "activities_synced" := JInt(r.synced),
        "activities_new" := JInt(r.added),
        "activities_updated" := JInt(r.updated),
        "photos_downloaded" := JInt(r.photosDownloaded),
        "errors" := JList(seq(|r.errors|, i requires 0 <= i < |r.errors| =>
                             JObj(map["activity_id" := JStr(r.errors[i].activityId), "error" := JStr(r.errors[i].error)])))]
  }

  /** The summary `sync` logs in text mode: the counts, the photos when any, the errors when any. */
  function SyncSummary(r: Backup.SyncReport): (lines: seq<string>)
    ensures |lines| == 1 + (if r.photosDownloaded > 0 then 1 else 0) + (if r.errors != [] then 1 else 0)
    ensures lines[0] == "\nSynced " + IntToString(r.synced) + " activities (" + IntToString(r.added) + " new, "
                        + IntToString(r.updated) + " updated)"
  {
    ["\nSynced " + IntToString(r.synced) + " activities (" + IntToString(r.added) + " new, "
     + IntToString(r.updated) + " updated)"]
    + (if r.photosDownloaded > 0 then ["Downloaded " + IntToString(r.photosDownloaded) + " photos"] else [])
    + (if r.errors != [] then ["Errors: " + IntToString(|r.errors|)] else [])
  }

  // ---------------------------------------------------------------- export fittrackee

  /** Python's `a or b` on an optional command-line string: a missing or empty option falls back. */
  function OrConfigured(option: Option<string>, configured: string): (r: string)
    ensures option.Some? && option.value != "" ==> r == option.value
    ensures option.None? || option.value == "" ==> r == configured
  {
    if option.Some? && option.value != "" then option.value else configured
  }

  /** The FitTrackee credentials the command uses: each option, else the configured value. */
  function Credentials(url: Option<string>, email: Option<string>, password: Option<string>,
                       f: Configuration.FitTrackeeConfig): Configuration.FitTrackeeConfig
  {
    Configuration.FitTrackeeConfig(OrConfigured(url, f.url), OrConfigured(email, f.email), OrConfigured(password, f.password))
  }

  /** The three counts the command reads from the exporter's result. */
  datatype ExportResult = ExportResult(exported: int, skipped: int, failed: int)

  function ExportJson(r: ExportResult): map<string, Json>
  {
    map["exported" := JInt(r.exported), "skipped" := JInt(r.skipped), "failed" := JInt(r.failed)]
  }

  /** The summary the export logs in text mode; the failures only when there are some. */
  function ExportSummary(r: ExportResult): (lines: seq<string>)
    ensures |lines| == if r.failed > 0 then 3 else 2
    ensures lines[0] == "\nExported " + IntToString(r.exported) + " activities"
  {
    ["\nExported " + IntToString(r.exported) + " activities", "Skipped " + IntToString(r.skipped) + " activities"]
    + (if r.failed > 0 then ["Failed: " + IntToString(r.failed)] else [])
  }

  // ---------------------------------------------------------------- the context

  /** The line `error` prints to stderr outside JSON mode. */
  function ErrorText(message: string): string
  {
    "Error: " + message
  }

  /** The accumulator after `error` in JSON mode: the message under "error", and status "error". */
  function Errored(data: map<string, Json>, message: string): map<string, Json>
  {
    data["error" := JStr(message)]["status" := JStr("error")]
  }

  /** What `output()` prints: the document when enabled, nothing otherwise. */
  function Emitted(enabled: bool, data: map<string, Json>): seq<Echo>
  {
    if enabled then [Doc(JObj(data))] else []
  }

  /** The message `sync` reports for an exception: a `ValueError`'s own text, else "Sync failed: ". */
  function SyncFailure(e: Raised): string
  {
    if e.ValueError? then e.message else "Sync failed: " + e.message
  }

  /** `Context`: the loaded settings, the output flags and the JSON accumulator. */
  class Context {
    var config: Option<Configuration.Settings>
    var verbose: int
    var quiet: bool
    var jsonOutput: bool
    var output: JsonOutput

    constructor ()
      ensures config.None? && verbose == 0 && !quiet && !jsonOutput
      ensures fresh(output) && !output.enabled && output.data == map[]
    {
      config := None;
      verbose := 0;
      quiet := false;
      jsonOutput := false;
      output := new JsonOutput(false);
    }

    /** `log`: the line printed, if any. */
    function Log(message: string, level: int): (r: Option<string>)
      reads this
      ensures r.Some? <==> Shows(jsonOutput, quiet, verbose, level)
      ensures r.Some? ==> r.value == message
    {
      if Shows(jsonOutput, quiet, verbose, level) then Some(message) else None
    }

    /** The normal messages `log` prints, in order: all of them, or none when quiet or in JSON mode. */
    function LogAll(messages: seq<string>): (printed: seq<Echo>)
      reads this
      ensures printed == if jsonOutput || quiet then [] else seq(|messages|, i requires 0 <= i < |messages| => Out(messages[i]))
      decreases |messages|
    {
      if messages == [] then []
      else (if Log(messages[0], 0).Some? then [Out(messages[0])] else []) + LogAll(messages[1..])
    }

    /**
     * `error`: in JSON mode the message and `status = "error"` go into the
     * output; otherwise "Error: " and the message go to stderr.
     */
    method Error(message: string) returns (printed: seq<Echo>)
      modifies output
      ensures jsonOutput ==> output.data == Errored(old(output.data), message) && printed == []
      ensures !jsonOutput ==> output.data == old(output.data) && printed == [Err(ErrorText(message))]
      ensures output.enabled == old(output.enabled)
    {
      if jsonOutput {
        output.Set("error", JStr(message));
        output.Set("status", JStr("error"));
        printed := [];
      } else {
        printed := [Err(ErrorText(message))];
      }
    }

    /**
     * The group command: the flags, a fresh accumulator enabled by `--json`,
     * the settings `load_config` gives, and `--data-dir` over the directory.
     * A configuration that fails to load leaves no settings.
     */
    method Configure(verbose: int, quiet: bool, jsonOutput: bool, configPath: Option<string>, dataDir: Option<string>,
                     env: Configuration.Env, files: map<string, seq<(string, Configuration.Toml)>>)
      returns (error: Option<string>)
      modifies this
      ensures this.verbose == verbose && this.quiet == quiet && this.jsonOutput == jsonOutput
      ensures fresh(output) && output.enabled == jsonOutput && output.data == map[]
      ensures var loaded := Configuration.LoadConfig(configPath, env, files);
              && (loaded.Failure? ==> config.None? && error == Some(loaded.error))
              && (loaded.Success? ==> (error.None? && config.Some?
                                       && config.value == loaded.value.(directory := if dataDir.Some? then dataDir.value else loaded.value.directory)))
    {
      this.verbose := verbose;
      this.quiet := quiet;
      this.jsonOutput := jsonOutput;
      output := new JsonOutput(jsonOutput);
      var loaded := Configuration.LoadConfig(configPath, env, files);
      if loaded.Failure? {
        config := None;
        return Some(loaded.error);
      }
      var s := loaded.value;
      if dataDir.Some? {
        s := s.(directory := dataDir.value);
      }
      config := Some(s);
      return None;
    }

    /**
     * The failure path shared by the commands: the error is reported, the
     * JSON document (when enabled) printed, and the exit code chosen.
     */
    method Fail(message: string, code: int) returns (printed: seq<Echo>, exitCode: int)
      modifies output
      ensures exitCode == code
      ensures jsonOutput ==> output.data == Errored(old(output.data), message) && printed == Emitted(output.enabled, output.data)
      ensures !jsonOutput ==> output.data == old(output.data) && printed == [Err(ErrorText(message))]
      ensures output.enabled == old(output.enabled)
    {
      printed := Error(message);
      if jsonOutput {
        var doc := output.Output();
        printed := printed + doc;
      }
      exitCode := code;
    }

    /** The success path shared by the commands: `status = "success"` and the result, or the text summary. */
    method Succeed(result: map<string, Json>, summary: seq<string>) returns (printed: seq<Echo>)
      modifies output
      ensures jsonOutput ==> (output.data == old(output.data) + (map["status" := JStr("success")] + result)
                              && printed == Emitted(output.enabled, output.data))
      ensures !jsonOutput ==> output.data == old(output.data) && printed == LogAll(summary)
      ensures output.enabled == old(output.enabled)
    {
      if jsonOutput {
        output.Update(map["status" := JStr("success")] + result);
        printed := output.Output();
      } else {
        printed := LogAll(summary);
      }
    }

    /**
     * `sync`: without settings, "Configuration not loaded" and exit 1 (no JSON
     * document). Otherwise the service runs with the included items; a
     * `ValueError` reports its message and exits 2, any other exception
     * reports "Sync failed: " and exits 1, and a result is reported with
     * exit 0.
     */
    method Sync(noPhotos: bool, noStreams: bool, noComments: bool, service: Backup.Includes -> Run<Backup.SyncReport>)
      returns (printed: seq<Echo>, exitCode: int)
      modifies output
      ensures config.None? ==>
                && exitCode == 1
                && (jsonOutput ==> output.data == Errored(old(output.data), "Configuration not loaded") && printed == [])
                && (!jsonOutput ==> output.data == old(output.data) && printed == [Err(ErrorText("Configuration not loaded"))])
      ensures config.Some? ==>
                var run := service(SyncIncludes(noPhotos, noStreams, noComments, config.value.sync));
                match run
                case Returned(r) =>
                  && exitCode == 0
                  && (jsonOutput ==> (output.data == old(output.data) + (map["status" := JStr("success")] + ReportJson(r))
                                      && printed == Emitted(output.enabled, output.data)))
                  && (!jsonOutput ==> output.data == old(output.data) && printed == LogAll(SyncSummary(r)))
                case Raises(e) =>
                  && exitCode == ExitCode(e)
                  && (jsonOutput ==> (output.data == Errored(old(output.data), SyncFailure(e))
                                      && printed == Emitted(output.enabled, output.data)))
                  && (!jsonOutput ==> output.data == old(output.data) && printed == [Err(ErrorText(SyncFailure(e)))])
      ensures output.enabled == old(output.enabled)
    {
      if config.None? {
        printed := Error("Configuration not loaded");
        exitCode := 1;
        return;
      }
      var inc := SyncIncludes(noPhotos, noStreams, noComments, config.value.sync);
      match service(inc) {
        case Returned(r) =>
          printed := Succeed(ReportJson(r), SyncSummary(r));
          exitCode := 0;
        case Raises(e) =>
          printed, exitCode := Fail(SyncFailure(e), ExitCode(e));
      }
    }

    /**
     * `export fittrackee`: without settings, exit 1; with no URL from the
     * option or the settings, "FitTrackee URL is required" and exit 2 before
     * any exporter is built; otherwise the exporter runs with the chosen
     * credentials, and every exception it raises exits 1.
     */
    method ExportFitTrackee(url: Option<string>, email: Option<string>, password: Option<string>,
                            exporter: Configuration.FitTrackeeConfig -> Run<ExportResult>)
      returns (printed: seq<Echo>, exitCode: int, used: Option<Configuration.FitTrackeeConfig>)
      modifies output
      ensures config.None? ==>
                && exitCode == 1 && used.None?
                && (jsonOutput ==> output.data == Errored(old(output.data), "Configuration not loaded") && printed == [])
                && (!jsonOutput ==> output.data == old(output.data) && printed == [Err(ErrorText("Configuration not loaded"))])
      ensures config.Some? ==>
                var creds := Credentials(url, email, password, config.value.fittrackee);
                && (creds.url == "" ==>
                      && exitCode == 2 && used.None?
                      && (jsonOutput ==> (output.data == Errored(old(output.data), "FitTrackee URL is required")
                                          && printed == Emitted(output.enabled, output.data)))
                      && (!jsonOutput ==> output.data == old(output.data) && printed == [Err(ErrorText("FitTrackee URL is required"))]))
                && (creds.url != "" ==>
                      && used == Some(creds)
                      && match exporter(creds)
                         case Returned(r) =>
                           && exitCode == 0
                           && (jsonOutput ==> (output.data == old(output.data) + (map["status" := JStr("success")] + ExportJson(r))
                                               && printed == Emitted(output.enabled, output.data)))
                           && (!jsonOutput ==> output.data == old(output.data) && printed == LogAll(ExportSummary(r)))
                         case Raises(e) =>
                           && exitCode == 1
                           && (jsonOutput ==> (output.data == Errored(old(output.data), "FitTrackee export failed: " + e.message)
                                               && printed == Emitted(output.enabled, output.data)))
                           && (!jsonOutput ==> output.data == old(output.data)
                                               && printed == [Err(ErrorText("FitTrackee export failed: " + e.message))]))
      ensures output.enabled == old(output.enabled)
    {
      used := None;
      if config.None? {
        printed := Error("Configuration not loaded");
        exitCode := 1;
        return;
      }
      var creds := Credentials(url, email, password, config.value.fittrackee);
      if creds.url == "" {
        printed, exitCode := Fail("FitTrackee URL is required", 2);
        return;
      }
      used := Some(creds);
      match exporter(creds) {
        case Returned(r) =>
          printed := Succeed(ExportJson(r), ExportSummary(r));
          exitCode := 0;
        case Raises(e) =>
            printed, exitCode := Fail("FitTrackee export failed: " + e.message, 1);
      }
    }
  }

  /** The option wins over the configuration whenever it is given and not empty. */
  lemma CredentialsPrecedence(url: Option<string>, email: Option<string>, password: Option<string>,
                              f: Configuration.FitTrackeeConfig)
    ensures var c := Credentials(url, email, password, f);
            && c.url == (if url.Some? && url.value != "" then url.value else f.url)
            && c.email == (if email.Some? && email.value != "" then email.value else f.email)
            && c.password == (if password.Some? && password.value != "" then password.value else f.password)
  {
  }
}

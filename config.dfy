/**
 * The configuration of strava-backup: the settings records with their
 * defaults, loading with the precedence environment > TOML file > defaults,
 * `save_tokens`, and the small TOML writer it uses.
 *
 * The file system is a map from path to the parsed TOML document at that
 * path, and the environment a map from variable name to value.
 */
module Configuration {
  import opened Util

  // ---------------------------------------------------------------- TOML values

  /** A parsed TOML value; a table keeps its keys in file order, as the Python dict does. */
  datatype Toml =
    | TBool(b: bool)
    | TInt(i: int)
    | TStr(s: string)
    | TList(items: seq<Toml>)
    | TTable(entries: seq<(string, Toml)>)

  /** The value of the first entry under `key`. */
  function Lookup(t: seq<(string, Toml)>, key: string): Option<Toml>
    decreases |t|
  {
    if t == [] then None else if t[0].0 == key then Some(t[0].1) else Lookup(t[1..], key)
  }

  function Keys(t: seq<(string, Toml)>): seq<string>
  {
    seq(|t|, k requires 0 <= k < |t| => t[k].0)
  }

  /** `d[key] = v` on a Python dict: an existing key keeps its place, a new key goes last. */
  function SetKey(t: seq<(string, Toml)>, key: string, v: Toml): seq<(string, Toml)>
    decreases |t|
  {
    if t == [] then [(key, v)]
    else if t[0].0 == key then [(key, v)] + t[1..]
    else [t[0]] + SetKey(t[1..], key, v)
  }

  /**
   * After `d[key] = v` the key holds `v`, every other key holds what it held,
   * and the keys keep their order, with `key` appended when it is new.
   */
  lemma SetKeyMeaning(t: seq<(string, Toml)>, key: string, v: Toml)
    ensures Lookup(SetKey(t, key, v), key) == Some(v)
    ensures forall k :: k != key ==> Lookup(SetKey(t, key, v), k) == Lookup(t, k)
    ensures Keys(SetKey(t, key, v)) == if Lookup(t, key).Some? then Keys(t) else Keys(t) + [key]
  {
    SetKeyFound(t, key, v);
    forall k | k != key ensures Lookup(SetKey(t, key, v), k) == Lookup(t, k) {
      SetKeyOther(t, key, v, k);
    }
    SetKeyKeys(t, key, v);
  }

  lemma {:induction false} SetKeyFound(t: seq<(string, Toml)>, key: string, v: Toml)
    ensures Lookup(SetKey(t, key, v), key) == Some(v)
    decreases |t|
  {
    if |t| > 0 && t[0].0 != key {
      SetKeyFound(t[1..], key, v);
    }
  }

  lemma {:induction false} SetKeyOther(t: seq<(string, Toml)>, key: string, v: Toml, k: string)
    requires k != key
    ensures Lookup(SetKey(t, key, v), k) == Lookup(t, k)
    decreases |t|
  {
    if |t| > 0 && t[0].0 != key {
      SetKeyOther(t[1..], key, v, k);
    }
  }

  lemma {:induction false} SetKeyKeys(t: seq<(string, Toml)>, key: string, v: Toml)
    ensures Keys(SetKey(t, key, v)) == if Lookup(t, key).Some? then Keys(t) else Keys(t) + [key]
    decreases |t|
  {
    if |t| > 0 && t[0].0 != key {
      SetKeyKeys(t[1..], key, v);
      assert Keys(t) == [t[0].0] + Keys(t[1..]);
      assert Keys(SetKey(t, key, v)) == [t[0].0] + Keys(SetKey(t[1..], key, v));
    } else if |t| > 0 {
      assert Keys(t) == [key] + Keys(t[1..]);
      assert Keys(SetKey(t, key, v)) == [key] + Keys(t[1..]);
    }
  }

  // ---------------------------------------------------------------- settings

  /** `StravaConfig`. */
  datatype StravaConfig = StravaConfig(
    clientId: string,
    clientSecret: string,
    accessToken: string,
    refreshToken: string,
    tokenExpiresAt: int,
    excludeAthletes: seq<string>)

  /** `FitTrackeeConfig`. */
  datatype FitTrackeeConfig = FitTrackeeConfig(url: string, email: string, password: string)

  /** `SyncConfig`: which sub-resources a sync fetches. */
  datatype SyncConfig = SyncConfig(photos: bool, streams: bool, comments: bool)

  /** The fields of `Config`; `directory` is the data directory (`data.directory`). */
  datatype Settings = Settings(
    strava: StravaConfig,
    directory: string,
    fittrackee: FitTrackeeConfig,
    sync: SyncConfig,
    configPath: Option<string>)

  const DefaultDataDir: string := "./data"
  /** `~/.config/strava-backup/config.toml`; the home directory is not resolved. */
  const DefaultConfigPath: string := "~/.config/strava-backup/config.toml"

  /** The dataclass defaults of `Config()`. */
  function Defaults(): Settings
  {
    Settings(StravaConfig("", "", "", "", 0, []), DefaultDataDir, FitTrackeeConfig("", "", ""),
             SyncConfig(true, true, true), None)
  }

  /** A default `Config` has no client id, and fetches photos, streams and comments. */
  lemma DefaultConfig()
    ensures Defaults().strava.clientId == ""
    ensures Defaults().sync.photos && Defaults().sync.streams && Defaults().sync.comments
    ensures Defaults().configPath.None?
  {
  }

  // ---------------------------------------------------------------- environment

  /** `os.environ` */
  type Env = map<string, string>

  /** `_get_env_value(key)`: the value, or "" when unset. */
  function EnvValue(env: Env, key: string): string
  {
    if key in env then env[key] else ""
  }

  const TrueWords: seq<string> := ["true", "1", "yes", "on"]

  /** `_get_env_bool`. */
  function EnvBool(env: Env, key: string, default: bool): (r: bool)
    ensures EnvValue(env, key) == "" ==> r == default
  {
    var value := EnvValue(env, key);
    if value == "" then default else Lower(value) in TrueWords
  }

  /**
   * A set variable reads the same as its lower-cased form; "TRUE", "Yes" and
   * "ON" are true, and any other non-empty value, such as "no" or "0", is false.
   */
  lemma EnvBoolCaseInsensitive(env: Env, key: string, v: string, default: bool)
    requires v != ""
    ensures EnvBool(env[key := v], key, default) == EnvBool(env[key := Lower(v)], key, default)
    ensures EnvBool(env[key := v], key, default) <==> Lower(v) in TrueWords
  {
    LowerIdempotent(v);
    assert |Lower(v)| == |v|;
  }

  lemma EnvBoolWords(env: Env, key: string, default: bool)
    ensures EnvBool(env[key := "TRUE"], key, false) && EnvBool(env[key := "Yes"], key, false)
    ensures EnvBool(env[key := "On"], key, false) && EnvBool(env[key := "1"], key, false)
    ensures !EnvBool(env[key := "no"], key, true) && !EnvBool(env[key := "0"], key, true)
    ensures EnvBool(env[key := ""], key, default) == default && EnvBool(env - {key}, key, default) == default
  {
    assert Lower("TRUE") == "true";
    assert Lower("Yes") == "yes";
    assert Lower("On") == "on";
    assert Lower("1") == "1";
    assert Lower("no") == "no";
    assert Lower("0") == "0";
  }

  // ---------------------------------------------------------------- loading the file

  /** A section or nested table that is present but not a table: its `.get` raises. */
  const NotATable: string := "AttributeError: object has no attribute 'get'"

  /** `table.get(key, default)` for a string field. */
  function StrAt(t: seq<(string, Toml)>, key: string, default: string): string
  {
    match Lookup(t, key)
    case Some(TStr(s)) => s
    case _ => default
  }

  function IntAt(t: seq<(string, Toml)>, key: string, default: int): int
  {
    match Lookup(t, key)
    case Some(TInt(i)) => i
    case _ => default
  }

  function BoolAt(t: seq<(string, Toml)>, key: string, default: bool): bool
  {
    match Lookup(t, key)
    case Some(TBool(b)) => b
    case _ => default
  }

  predicate AllStrings(items: seq<Toml>)
  {
    forall k :: 0 <= k < |items| ==> items[k].TStr?
  }

  function StringsAt(t: seq<(string, Toml)>, key: string, default: seq<string>): seq<string>
  {
    match Lookup(t, key)
    case Some(TList(items)) =>
      if AllStrings(items) then seq(|items|, k requires 0 <= k < |items| => items[k].s) else default
    case _ => default
  }

  /** The `[strava]` section, with its `[strava.exclude]` table. */
  function StravaFrom(c: StravaConfig, data: seq<(string, Toml)>): Outcome<StravaConfig>
  {
    match Lookup(data, "strava")
    case None => Success(c)
    case Some(TTable(t)) =>
      var c1 := c.(clientId := StrAt(t, "client_id", c.clientId),
                   clientSecret := StrAt(t, "client_secret", c.clientSecret),
                   accessToken := StrAt(t, "access_token", c.accessToken),
                   refreshToken := StrAt(t, "refresh_token", c.refreshToken),
                   tokenExpiresAt := IntAt(t, "token_expires_at", c.tokenExpiresAt));
      (match Lookup(t, "exclude")
       case None => Success(c1)
       case Some(TTable(e)) => Success(c1.(excludeAthletes := StringsAt(e, "athletes", c1.excludeAthletes)))
       case Some(_) => Failure(NotATable))
    case Some(_) => Failure(NotATable)
  }

  /** The `[data]` section; `Path()` of a value that is not a string raises. */
  function DirectoryFrom(directory: string, data: seq<(string, Toml)>): Outcome<string>
  {
    match Lookup(data, "data")
    case None => Success(directory)
    case Some(TTable(t)) =>
      (match Lookup(t, "directory")
       case None => Success(directory)
       case Some(TStr(p)) => Success(p)
       case Some(_) => Failure("TypeError: expected str, bytes or os.PathLike object"))
    case Some(_) => Failure(NotATable)
  }

  function FitTrackeeFrom(c: FitTrackeeConfig, data: seq<(string, Toml)>): Outcome<FitTrackeeConfig>
  {
    match Lookup(data, "fittrackee")
    case None => Success(c)
    case Some(TTable(t)) =>
      Success(FitTrackeeConfig(StrAt(t, "url", c.url), StrAt(t, "email", c.email), StrAt(t, "password", c.password)))
    case Some(_) => Failure(NotATable)
  }

  function SyncFrom(c: SyncConfig, data: seq<(string, Toml)>): Outcome<SyncConfig>
  {
    match Lookup(data, "sync")
    case None => Success(c)
    case Some(TTable(t)) =>
      Success(SyncConfig(BoolAt(t, "photos", c.photos), BoolAt(t, "streams", c.streams), BoolAt(t, "comments", c.comments)))
    case Some(_) => Failure(NotATable)
  }

  /**
   * `_load_from_file` on the parsed document: the sections in turn, each
   * overwriting only the keys it holds. A section that raises leaves the
   * settings as the sections before it made them, and the error.
   */
  function LoadSections(s: Settings, data: seq<(string, Toml)>): (Settings, Option<string>)
  {
    match StravaFrom(s.strava, data)
    case Failure(e) => (s, Some(e))
    case Success(strava) =>
      var s1 := s.(strava := strava);
      match DirectoryFrom(s1.directory, data)
      case Failure(e) => (s1, Some(e))
      case Success(dir) =>
        var s2 := s1.(directory := dir);
        match FitTrackeeFrom(s2.fittrackee, data)
        case Failure(e) => (s2, Some(e))
        case Success(ft) =>
          var s3 := s2.(fittrackee := ft);
          match SyncFrom(s3.sync, data)
          case Failure(e) => (s3, Some(e))
          case Success(sync) => (s3.(sync := sync), None)
  }

  /** `_load_from_file`, as a value: the loaded settings or the exception. */
  function FromFile(s: Settings, data: seq<(string, Toml)>): Outcome<Settings>
  {
    var (s1, e) := LoadSections(s, data);
    if e.Some? then Failure(e.value) else Success(s1)
  }

  /** A file without a section leaves that part, as every part the file does not name, as it was. */
  lemma FromFileKeepsAbsent(s: Settings, data: seq<(string, Toml)>)
    requires FromFile(s, data).Success?
    ensures FromFile(s, data).value.configPath == s.configPath
    ensures Lookup(data, "strava").None? ==> FromFile(s, data).value.strava == s.strava
    ensures Lookup(data, "data").None? ==> FromFile(s, data).value.directory == s.directory
    ensures Lookup(data, "fittrackee").None? ==> FromFile(s, data).value.fittrackee == s.fittrackee
    ensures Lookup(data, "sync").None? ==> FromFile(s, data).value.sync == s.sync
    ensures data == [] ==> FromFile(s, data) == Success(s)
  {
  }

  /** Loading the same file twice gives what loading it once gives. */
  lemma FromFileIdempotent(s: Settings, data: seq<(string, Toml)>)
    requires FromFile(s, data).Success?
    ensures FromFile(FromFile(s, data).value, data) == FromFile(s, data)
  {
  }

  /** A non-empty variable replaces the current value; an empty or unset one keeps it. */
  function Override(v: string, current: string): string
  {
    if v != "" then v else current
  }

  /** `_apply_env_overrides`: each non-empty variable replaces its field. */
  function WithEnv(s: Settings, env: Env): Settings
  {
    s.(strava := s.strava.(clientId := Override(EnvValue(env, "STRAVA_CLIENT_ID"), s.strava.clientId),
                           clientSecret := Override(EnvValue(env, "STRAVA_CLIENT_SECRET"), s.strava.clientSecret)),
       directory := Override(EnvValue(env, "STRAVA_BACKUP_DATA_DIR"), s.directory),
       fittrackee := FitTrackeeConfig(
         Override(EnvValue(env, "FITTRACKEE_URL"), s.fittrackee.url),
         Override(EnvValue(env, "FITTRACKEE_EMAIL"), s.fittrackee.email),
         Override(EnvValue(env, "FITTRACKEE_PASSWORD"), s.fittrackee.password)))
  }

  /** The configuration file: the given path, else `$STRAVA_BACKUP_CONFIG` when set, else the default. */
  function ConfigPath(configPath: Option<string>, env: Env): string
  {
    if configPath.Some? then configPath.value
    else if EnvValue(env, "STRAVA_BACKUP_CONFIG") != "" then EnvValue(env, "STRAVA_BACKUP_CONFIG")
    else DefaultConfigPath
  }

  /** `load_config`: defaults, then the file when it exists, then the environment. */
  function LoadConfig(configPath: Option<string>, env: Env, files: map<string, seq<(string, Toml)>>): Outcome<Settings>
  {
    var path := ConfigPath(configPath, env);
    var s := Defaults().(configPath := Some(path));
    var loaded :- if path in files then FromFile(s, files[path]) else Success(s);
    Success(WithEnv(loaded, env))
  }

  /** The string a file gives for `[section] key`, if any. */
  function FileStr(data: seq<(string, Toml)>, section: string, key: string): Option<string>
  {
    match Lookup(data, section)
    case Some(TTable(t)) =>
      (match Lookup(t, key) case Some(TStr(s)) => Some(s) case _ => None)
    case _ => None
  }

  function FileBool(data: seq<(string, Toml)>, section: string, key: string): Option<bool>
  {
    match Lookup(data, section)
    case Some(TTable(t)) =>
      (match Lookup(t, key) case Some(TBool(b)) => Some(b) case _ => None)
    case _ => None
  }

  /** A loaded `[strava]` section takes each key the file gives and keeps the others. */
  lemma StravaFromFields(c: StravaConfig, data: seq<(string, Toml)>)
    requires StravaFrom(c, data).Success?
    ensures var r := StravaFrom(c, data).value;
            && r.clientId == OrElse(FileStr(data, "strava", "client_id"), c.clientId)
            && r.clientSecret == OrElse(FileStr(data, "strava", "client_secret"), c.clientSecret)
            && r.accessToken == OrElse(FileStr(data, "strava", "access_token"), c.accessToken)
            && r.refreshToken == OrElse(FileStr(data, "strava", "refresh_token"), c.refreshToken)
  {
  }

  /**
   * A file that loads sets each setting it gives and keeps each one it does
   * not: `_load_from_file` overwrites only the keys present.
   */
  lemma FromFileFields(s: Settings, data: seq<(string, Toml)>)
    requires FromFile(s, data).Success?
    ensures var r := FromFile(s, data).value;
            && r.configPath == s.configPath
            && r.strava.clientId == OrElse(FileStr(data, "strava", "client_id"), s.strava.clientId)
            && r.strava.clientSecret == OrElse(FileStr(data, "strava", "client_secret"), s.strava.clientSecret)
            && r.strava.accessToken == OrElse(FileStr(data, "strava", "access_token"), s.strava.accessToken)
            && r.strava.refreshToken == OrElse(FileStr(data, "strava", "refresh_token"), s.strava.refreshToken)
            && r.directory == OrElse(FileStr(data, "data", "directory"), s.directory)
            && r.fittrackee.url == OrElse(FileStr(data, "fittrackee", "url"), s.fittrackee.url)
            && r.fittrackee.email == OrElse(FileStr(data, "fittrackee", "email"), s.fittrackee.email)
            && r.fittrackee.password == OrElse(FileStr(data, "fittrackee", "password"), s.fittrackee.password)
            && r.sync.photos == OrElse(FileBool(data, "sync", "photos"), s.sync.photos)
            && r.sync.streams == OrElse(FileBool(data, "sync", "streams"), s.sync.streams)
            && r.sync.comments == OrElse(FileBool(data, "sync", "comments"), s.sync.comments)
  {
    StravaFromFields(s.strava, data);
  }

  /** The document at the configuration path; a missing file reads as an empty one. */
  function ConfigFile(configPath: Option<string>, env: Env, files: map<string, seq<(string, Toml)>>): seq<(string, Toml)>
  {
    var path := ConfigPath(configPath, env);
    if path in files then files[path] else []
  }

  /** Loading fails exactly when the file exists and is malformed. */
  lemma LoadConfigFails(configPath: Option<string>, env: Env, files: map<string, seq<(string, Toml)>>)
    ensures var path := ConfigPath(configPath, env);
            LoadConfig(configPath, env, files).Failure? <==>
              path in files && FromFile(Defaults().(configPath := Some(path)), files[path]).Failure?
  {
  }

  /**
   * The precedence, setting by setting: a non-empty environment variable,
   * then the file, then the default; settings without a variable come from
   * the file, else the default.
   */
  lemma LoadConfigPrecedence(configPath: Option<string>, env: Env, files: map<string, seq<(string, Toml)>>)
    requires LoadConfig(configPath, env, files).Success?
    ensures var r := LoadConfig(configPath, env, files).value;
            var file := ConfigFile(configPath, env, files);
            && r.configPath == Some(ConfigPath(configPath, env))
            && r.strava.clientId == Override(EnvValue(env, "STRAVA_CLIENT_ID"), OrElse(FileStr(file, "strava", "client_id"), ""))
            && r.strava.clientSecret == Override(EnvValue(env, "STRAVA_CLIENT_SECRET"), OrElse(FileStr(file, "strava", "client_secret"), ""))
            && r.directory == Override(EnvValue(env, "STRAVA_BACKUP_DATA_DIR"), OrElse(FileStr(file, "data", "directory"), DefaultDataDir))
            && r.fittrackee.url == Override(EnvValue(env, "FITTRACKEE_URL"), OrElse(FileStr(file, "fittrackee", "url"), ""))
            && r.fittrackee.email == Override(EnvValue(env, "FITTRACKEE_EMAIL"), OrElse(FileStr(file, "fittrackee", "email"), ""))
            && r.fittrackee.password == Override(EnvValue(env, "FITTRACKEE_PASSWORD"), OrElse(FileStr(file, "fittrackee", "password"), ""))
    ensures var r := LoadConfig(configPath, env, files).value;
            var file := ConfigFile(configPath, env, files);
            && r.strava.accessToken == OrElse(FileStr(file, "strava", "access_token"), "")
            && r.strava.refreshToken == OrElse(FileStr(file, "strava", "refresh_token"), "")
            && r.sync.photos == OrElse(FileBool(file, "sync", "photos"), true)
            && r.sync.streams == OrElse(FileBool(file, "sync", "streams"), true)
            && r.sync.comments == OrElse(FileBool(file, "sync", "comments"), true)
  {
    var path := ConfigPath(configPath, env);
    if path in files {
      FromFileFields(Defaults().(configPath := Some(path)), files[path]);
    }
  }

  /** The variables set in the environment win over the file. */
  lemma LoadConfigFromEnv(files: map<string, seq<(string, Toml)>>)
    requires "/tmp/config.toml" !in files
    ensures var env := map["STRAVA_CLIENT_ID" := "test_id", "STRAVA_CLIENT_SECRET" := "test_secret"];
            var r := LoadConfig(Some("/tmp/config.toml"), env, files);
            r.Success? && r.value.strava.clientId == "test_id" && r.value.strava.clientSecret == "test_secret"
  {
    var env := map["STRAVA_CLIENT_ID" := "test_id", "STRAVA_CLIENT_SECRET" := "test_secret"];
    LoadConfigPrecedence(Some("/tmp/config.toml"), env, files);
  }

  /** A file that sets the client id, the data directory and `photos = false`. */
  lemma LoadConfigFromFile()
    ensures var file := [("strava", TTable([("client_id", TStr("file_id")), ("client_secret", TStr("file_secret"))])),
                         ("data", TTable([("directory", TStr("/custom/path"))])),
                         ("sync", TTable([("photos", TBool(false))]))];
            var r := LoadConfig(Some("/tmp/config.toml"), map[], map["/tmp/config.toml" := file]);
            && r.Success? && r.value.strava.clientId == "file_id" && !r.value.sync.photos
            && r.value.sync.streams && r.value.directory == "/custom/path"
  {
    var file := [("strava", TTable([("client_id", TStr("file_id")), ("client_secret", TStr("file_secret"))])),
                 ("data", TTable([("directory", TStr("/custom/path"))])),
                 ("sync", TTable([("photos", TBool(false))]))];
    var files := map["/tmp/config.toml" := file];
    assert Lookup(file, "strava") == Some(file[0].1);
    assert Lookup(file, "data") == Some(file[1].1);
    assert Lookup(file, "sync") == Some(file[2].1);
    assert Lookup(file, "fittrackee") == None;
    assert StravaFrom(Defaults().strava, file).Success?;
    assert FromFile(Defaults().(configPath := Some("/tmp/config.toml")), file).Success?;
    LoadConfigPrecedence(Some("/tmp/config.toml"), map[], files);
  }

  // ---------------------------------------------------------------- TOML strings

  /** A control character that a TOML basic string must escape (tab need not be). */
  predicate IsControl(c: char)
  {
    c as int < 32 || c as int == 127
  }

  function HexDigit(d: nat): char
    requires d < 16
  {
    if d < 10 then ('0' as int + d) as char else ('A' as int + d - 10) as char
  }

  lemma HexDigitRoundTrip(d: nat)
    requires d < 16
    ensures HexDigitValue(HexDigit(d)) == Some(d)
  {
  }

  function HexDigitValue(c: char): Option<nat>
  {
    if '0' <= c <= '9' then Some(c as int - '0' as int)
    else if 'A' <= c <= 'F' then Some(c as int - 'A' as int + 10)
    else if 'a' <= c <= 'f' then Some(c as int - 'a' as int + 10)
    else None
  }

  function HexNumber(s: string): Option<nat>
    decreases |s|
  {
    if s == [] then Some(0)
    else
      var high, low := HexNumber(s[..|s| - 1]), HexDigitValue(s[|s| - 1]);
      if high.Some? && low.Some? then Some(high.value * 16 + low.value) else None
  }

  /** The character of a Unicode code point, when it is a scalar value. */
  function CodePoint(n: Option<nat>): Option<char>
  {
    if n.Some? && (n.value < 0xD800 || 0xE000 <= n.value < 0x11_0000) then Some(n.value as char) else None
  }

  /** The length of the escape sequence a backslash and `c` begin; 0 when there is none. */
  function EscapeLength(c: char): nat
  {
    if c in "btnfr\"\\" then 2 else if c == 'u' then 6 else if c == 'U' then 10 else 0
  }

  /** The character an escape sequence stands for. */
  function EscapedChar(e: string): Option<char>
    requires |e| >= 2
  {
    match e[1]
    case 'b' => Some(8 as char)
    case 't' => Some('\t')
    case 'n' => Some('\n')
    case 'f' => Some(12 as char)
    case 'r' => Some('\r')
    case '\"' => Some('\"')
    case '\\' => Some('\\')
    case _ => CodePoint(HexNumber(e[2..]))
  }

  function Prepend(c: char, rest: Option<string>): Option<string>
  {
    if rest.Some? then Some([c] + rest.value) else None
  }

  /**
   * The text between the quotes of a TOML (v1.0.0) basic string, decoded:
   * None when the text holds a bare quote, an unescaped control character or
   * an escape sequence TOML does not define.
   */
  function Unescape(b: string): Option<string>
    decreases |b|
  {
    if b == [] then Some("")
    else if b[0] == '\"' || (IsControl(b[0]) && b[0] != '\t') then None
    else if b[0] != '\\' then Prepend(b[0], Unescape(b[1..]))
    else if |b| < 2 || EscapeLength(b[1]) == 0 || |b| < EscapeLength(b[1]) then None
    else
      var n := EscapeLength(b[1]);
      var c := EscapedChar(b[..n]);
      if c.None? then None else Prepend(c.value, Unescape(b[n..]))
  }

  /** One character as a TOML basic string holds it. */
  function EscapeChar(c: char): string
  {
    if c == '\"' then "\\\""
    else if c == '\\' then "\\\\"
    else if IsControl(c) && c != '\t' then "\\u00" + [HexDigit(c as int / 16), HexDigit(c as int % 16)]
    else [c]
  }

  function Escape(s: string): string
    decreases |s|
  {
    if s == [] then "" else EscapeChar(s[0]) + Escape(s[1..])
  }

  lemma EscapeCharDecodes(c: char, r: string)
    ensures Unescape(EscapeChar(c) + r) == Prepend(c, Unescape(r))
  {
    var e := EscapeChar(c);
    assert (e + r)[0] == e[0];
    if c == '\"' || c == '\\' {
      assert (e + r)[1] == e[1] && (e + r)[..2] == e && (e + r)[2..] == r;
    } else if IsControl(c) && c != '\t' {
      var hi, lo := c as int / 16, c as int % 16;
      assert (e + r)[1] == 'u' && (e + r)[..6] == e && (e + r)[6..] == r;
      var digits := ['0', '0', HexDigit(hi), HexDigit(lo)];
      assert e[2..] == digits;
      HexDigitRoundTrip(hi);
      HexDigitRoundTrip(lo);
      assert HexNumber(digits[..1]) == Some(0) by { assert digits[..1][..0] == []; }
      assert HexNumber(digits[..2]) == Some(0) by { assert digits[..2][..1] == digits[..1]; }
      assert HexNumber(digits[..3]) == Some(hi) by { assert digits[..3][..2] == digits[..2]; }
      assert HexNumber(digits) == Some(hi * 16 + lo) by { assert digits[..3] == digits[..|digits| - 1]; }
    } else {
      assert (e + r)[1..] == r;
    }
  }

  /** Escaping a text and decoding the result gives the text back. */
  lemma {:induction false} EscapeRoundTrip(s: string)
    ensures Unescape(Escape(s)) == Some(s)
    decreases |s|
  {
    if s != [] {
      EscapeRoundTrip(s[1..]);
      EscapeCharDecodes(s[0], Escape(s[1..]));
      assert [s[0]] + s[1..] == s;
    }
  }

  // ---------------------------------------------------------------- formatting values

  /** Python's `str()` of a value nested too deep for the writer (a dict two levels down). */
  function PyStr(v: Toml): string
    decreases v
  {
    match v
    case TBool(b) => if b then "True" else "False"
    case TInt(i) => IntToString(i)
    case TStr(s) => "'" + s + "'"
    case TList(items) => "[" + PyStrItems(items) + "]"
    case TTable(t) => "{" + PyStrEntries(t) + "}"
  }

  function PyStrItems(items: seq<Toml>): string
    decreases items
  {
    if items == [] then ""
    else if |items| == 1 then PyStr(items[0])
    else PyStr(items[0]) + ", " + PyStrItems(items[1..])
  }

  function PyStrEntries(t: seq<(string, Toml)>): string
    decreases t
  {
    if t == [] then ""
    else
      assert t[0].1 < t[0];
      var entry := "'" + t[0].0 + "': " + PyStr(t[0].1);
      if |t| == 1 then entry else entry + ", " + PyStrEntries(t[1..])
  }

  /**
   * `_format_toml_value` as written: true/false for a bool (checked before
   * the int case in Python, where bool is an int), a string between double
   * quotes as it is, an int in decimal, a list as "[a, b]".
   */
  function FormatValueAsWritten(v: Toml): string
    decreases v
  {
    match v
    case TBool(b) => if b then "true" else "false"
    case TStr(s) => "\"" + s + "\""
    case TInt(i) => IntToString(i)
    case TList(items) => "[" + FormatItemsAsWritten(items) + "]"
    case TTable(_) => PyStr(v)
  }

  /** `", ".join(_format_toml_value(v) for v in value)`. */
  function FormatItemsAsWritten(items: seq<Toml>): string
    decreases items
  {
    if items == [] then ""
    else if |items| == 1 then FormatValueAsWritten(items[0])
    else FormatValueAsWritten(items[0]) + ", " + FormatItemsAsWritten(items[1..])
  }

  /**
   * A string value with a backslash or a double quote in it is written as a
   * TOML string that does not parse: `C:\data` gives the invalid escape `\d`,
   * `a"b` ends the string early.
   */
  lemma UnescapedStringsBreak()
    ensures var w := FormatValueAsWritten(TStr("C:\\data"));
            w == "\"C:\\data\"" && Unescape(w[1..|w| - 1]).None?
    ensures var w := FormatValueAsWritten(TStr("a\"b"));
            w == "\"a\"b\"" && Unescape(w[1..|w| - 1]).None?
  {
    BackslashBreaks();
    QuoteBreaks();
  }

  lemma BackslashBreaks()
    ensures var w := FormatValueAsWritten(TStr("C:\\data"));
            w == "\"C:\\data\"" && Unescape(w[1..|w| - 1]).None?
  {
    var w := FormatValueAsWritten(TStr("C:\\data"));
    assert w[1..|w| - 1] == "C:\\data";
    assert Unescape("\\data").None? by {
      assert "\\data"[0] == '\\' && "\\data"[1] == 'd' && EscapeLength('d') == 0;
    }
    assert Unescape(":\\data") == Prepend(':', Unescape("\\data")) by {
      assert ":\\data"[0] == ':' && ":\\data"[1..] == "\\data";
    }
    assert Unescape("C:\\data") == Prepend('C', Unescape(":\\data")) by {
      assert "C:\\data"[0] == 'C' && "C:\\data"[1..] == ":\\data";
    }
  }

  lemma QuoteBreaks()
    ensures var w := FormatValueAsWritten(TStr("a\"b"));
            w == "\"a\"b\"" && Unescape(w[1..|w| - 1]).None?
  {
    var w := FormatValueAsWritten(TStr("a\"b"));
    assert w[1..|w| - 1] == "a\"b";
    assert Unescape("\"b").None? by {
      assert "\"b"[0] == '\"';
    }
    assert Unescape("a\"b") == Prepend('a', Unescape("\"b")) by {
      assert "a\"b"[0] == 'a' && "a\"b"[1..] == "\"b";
    }
  }

  /**
   * As written, a bool is `true`/`false`, an int reads back as itself, a
   * list is bracketed, and a string without quotes, backslashes or control
   * characters other than tab reads back as itself.
   */
  lemma FormatValueAsWrittenReadsBack(v: Toml)
    ensures v.TBool? ==> FormatValueAsWritten(v) == (if v.b then "true" else "false")
    ensures v.TInt? ==> ParseInt(FormatValueAsWritten(v)) == Some(v.i)
    ensures v.TList? ==> var f := FormatValueAsWritten(v); |f| >= 2 && f[0] == '[' && f[|f| - 1] == ']'
    ensures v.TStr? && !('\"' in v.s || '\\' in v.s || exists k :: 0 <= k < |v.s| && IsControl(v.s[k]) && v.s[k] != '\t') ==>
              var f := FormatValueAsWritten(v);
              |f| >= 2 && f[0] == '\"' && f[|f| - 1] == '\"' && Unescape(f[1..|f| - 1]) == Some(v.s)
  {
    FormatValueReadsBack(v);
    if v.TInt? {
      IntToStringRoundTrip(v.i);
    }
  }

  /** `_format_toml_value` with strings escaped as TOML basic strings require. */
  function FormatValue(v: Toml): string
    decreases v
  {
    match v
    case TBool(b) => if b then "true" else "false"
    case TStr(s) => "\"" + Escape(s) + "\""
    case TInt(i) => IntToString(i)
    case TList(items) => "[" + FormatItems(items) + "]"
    case TTable(_) => PyStr(v)
  }

  function FormatItems(items: seq<Toml>): string
    decreases items
  {
    if items == [] then ""
    else if |items| == 1 then FormatValue(items[0])
    else FormatValue(items[0]) + ", " + FormatItems(items[1..])
  }

  /** Strings and ints read back as what was written; the two agree on every value without strings. */
  lemma FormatValueReadsBack(v: Toml)
    ensures v.TStr? ==> var f := FormatValue(v);
              |f| >= 2 && f[0] == '\"' && f[|f| - 1] == '\"' && Unescape(f[1..|f| - 1]) == Some(v.s)
    ensures v.TInt? ==> ParseInt(FormatValue(v)) == Some(v.i)
    ensures v.TBool? ==> FormatValue(v) == (if v.b then "true" else "false")
    ensures v.TStr? && !('\"' in v.s || '\\' in v.s || exists k :: 0 <= k < |v.s| && IsControl(v.s[k]) && v.s[k] != '\t') ==>
              FormatValue(v) == FormatValueAsWritten(v)
  {
    match v
    case TStr(s) =>
      var f := FormatValue(v);
      assert f[1..|f| - 1] == Escape(s);
      EscapeRoundTrip(s);
      if !('\"' in s || '\\' in s || exists k :: 0 <= k < |s| && IsControl(s[k]) && s[k] != '\t') {
        EscapePlain(s);
      }
    case TInt(i) => IntToStringRoundTrip(i);
    case _ =>
  }

  lemma {:induction false} EscapePlain(s: string)
    requires !('\"' in s || '\\' in s || exists k :: 0 <= k < |s| && IsControl(s[k]) && s[k] != '\t')
    ensures Escape(s) == s
    decreases |s|
  {
    if s != [] {
      assert s[0] == s[0 + 0];
      assert forall k :: 0 <= k < |s[1..]| ==> s[1..][k] == s[k + 1];
      EscapePlain(s[1..]);
      assert [s[0]] + s[1..] == s;
    }
  }

  // ---------------------------------------------------------------- writing a document

  /** The `key = value` lines of a nested table such as `[strava.exclude]`. */
  function PairLines(t: seq<(string, Toml)>): seq<string>
    decreases |t|
  {
    if t == [] then []
    else PairLines(t[..|t| - 1]) + [t[|t| - 1].0 + " = " + FormatValueAsWritten(t[|t| - 1].1)]
  }

  /** The lines one entry of a section contributes: a nested table header and its pairs, or one pair. */
  function EntryLines(section: string, key: string, v: Toml): seq<string>
  {
    if v.TTable? then ["[" + section + "." + key + "]"] + PairLines(v.entries) else [key + " = " + FormatValueAsWritten(v)]
  }

  function KeyLines(section: string, t: seq<(string, Toml)>): seq<string>
    decreases |t|
  {
    if t == [] then [] else KeyLines(section, t[..|t| - 1]) + EntryLines(section, t[|t| - 1].0, t[|t| - 1].1)
  }

  /** A top-level table becomes `[name]`, its lines and an empty line; any other top-level value is dropped. */
  function SectionLines(name: string, v: Toml): seq<string>
  {
    if v.TTable? then ["[" + name + "]"] + KeyLines(name, v.entries) + [""] else []
  }

  function TomlLines(data: seq<(string, Toml)>): seq<string>
    decreases |data|
  {
    if data == [] then [] else TomlLines(data[..|data| - 1]) + SectionLines(data[|data| - 1].0, data[|data| - 1].1)
  }

  /** Only the tables of a document. */
  function Tables(data: seq<(string, Toml)>): seq<(string, Toml)>
    decreases |data|
  {
    if data == [] then []
    else Tables(data[..|data| - 1]) + (if data[|data| - 1].1.TTable? then [data[|data| - 1]] else [])
  }

  /** Top-level values that are not tables do not reach the file. */
  lemma {:induction false} TomlLinesTablesOnly(data: seq<(string, Toml)>)
    ensures TomlLines(Tables(data)) == TomlLines(data)
    decreases |data|
  {
    if data != [] {
      var init, last := data[..|data| - 1], data[|data| - 1];
      TomlLinesTablesOnly(init);
      assert Tables(data) == Tables(init) + (if last.1.TTable? then [last] else []);
      assert TomlLines(data) == TomlLines(init) + SectionLines(last.0, last.1);
      if last.1.TTable? {
        var t := Tables(init) + [last];
        assert t[..|t| - 1] == Tables(init) && t[|t| - 1] == last;
        assert TomlLines(t) == TomlLines(Tables(init)) + SectionLines(last.0, last.1);
      } else {
        assert Tables(init) + [] == Tables(init);
        assert TomlLines(init) + SectionLines(last.0, last.1) == TomlLines(init);
      }
    }
  }

  /** Every pair of a nested table appears as a `key = value` line. */
  lemma {:induction false} PairLinesHold(t: seq<(string, Toml)>, j: nat)
    requires j < |t|
    ensures t[j].0 + " = " + FormatValueAsWritten(t[j].1) in PairLines(t)
    decreases |t|
  {
    if j < |t| - 1 {
      PairLinesHold(t[..|t| - 1], j);
    }
  }

  /** Every flat entry of a section appears as a `key = value` line of that section. */
  lemma {:induction false} KeyLinesHold(section: string, t: seq<(string, Toml)>, j: nat)
    requires j < |t| && !t[j].1.TTable?
    ensures t[j].0 + " = " + FormatValueAsWritten(t[j].1) in KeyLines(section, t)
    decreases |t|
  {
    if j < |t| - 1 {
      KeyLinesHold(section, t[..|t| - 1], j);
    } else {
      assert KeyLines(section, t)[|KeyLines(section, t)| - 1] == t[j].0 + " = " + FormatValueAsWritten(t[j].1);
    }
  }

  /**
   * Every table of the document gets its `[name]` header, and every flat
   * entry of it a `key = value` line.
   */
  lemma {:induction false} TomlLinesHold(data: seq<(string, Toml)>, i: nat)
    requires i < |data| && data[i].1.TTable?
    ensures "[" + data[i].0 + "]" in TomlLines(data)
    ensures forall j :: 0 <= j < |data[i].1.entries| && !data[i].1.entries[j].1.TTable? ==>
              data[i].1.entries[j].0 + " = " + FormatValueAsWritten(data[i].1.entries[j].1) in TomlLines(data)
    decreases |data|
  {
    if i < |data| - 1 {
      TomlLinesHold(data[..|data| - 1], i);
    } else {
      var t := data[i].1.entries;
      var sl := SectionLines(data[i].0, data[i].1);
      assert sl[0] == "[" + data[i].0 + "]";
      forall j | 0 <= j < |t| && !t[j].1.TTable?
        ensures t[j].0 + " = " + FormatValueAsWritten(t[j].1) in TomlLines(data)
      {
        KeyLinesHold(data[i].0, t, j);
        assert KeyLines(data[i].0, t) <= sl[1..];
      }
    }
  }

  /** The pair lines of a nested table. */
  method WritePairs(nested: seq<(string, Toml)>) returns (lines: seq<string>)
    ensures lines == PairLines(nested)
  {
    lines := [];
    for m := 0 to |nested|
      invariant lines == PairLines(nested[..m])
    {
      assert nested[..m + 1][..m] == nested[..m];
      lines := lines + [nested[m].0 + " = " + FormatValueAsWritten(nested[m].1)];
    }
    assert nested[..|nested|] == nested;
  }

  /** The lines of one section's entries. */
  method WriteSection(section: string, t: seq<(string, Toml)>) returns (lines: seq<string>)
    ensures lines == KeyLines(section, t)
  {
    lines := [];
    for k := 0 to |t|
      invariant lines == KeyLines(section, t[..k])
    {
      assert t[..k + 1][..k] == t[..k];
      var entry := WriteEntry(section, t[k].0, t[k].1);
      lines := lines + entry;
    }
    assert t[..|t|] == t;
  }

  /** The body of the loop over a section: a nested table's header and pairs, or one pair. */
  method WriteEntry(section: string, key: string, value: Toml) returns (lines: seq<string>)
    ensures lines == EntryLines(section, key, value)
  {
    if value.TTable? {
      var pairs := WritePairs(value.entries);
      lines := ["[" + section + "." + key + "]"] + pairs;
    } else {
      lines := [key + " = " + FormatValueAsWritten(value)];
    }
  }

  /** The lines `_write_toml` puts in its file; the text is these joined with newlines. */
  method WriteTomlLines(data: seq<(string, Toml)>) returns (lines: seq<string>)
    ensures lines == TomlLines(data)
  {
    lines := [];
    for i := 0 to |data|
      invariant lines == TomlLines(data[..i])
    {
      assert data[..i + 1][..i] == data[..i];
      var block := WriteTable(data[i].0, data[i].1);
      lines := lines + block;
    }
    assert data[..|data|] == data;
  }

  /** The body of the loop over the document: a table's header, entries and blank line; nothing for other values. */
  method WriteTable(section: string, values: Toml) returns (lines: seq<string>)
    ensures lines == SectionLines(section, values)
  {
    lines := [];
    if values.TTable? {
      var body := WriteSection(section, values.entries);
      lines := ["[" + section + "]"] + body + [""];
    }
  }

  /** `_write_toml`: the text written. */
  method WriteToml(data: seq<(string, Toml)>) returns (text: string)
    ensures text == Join(TomlLines(data), "\n")
  {
    var lines := WriteTomlLines(data);
    text := Join(lines, "\n");
  }

  // ---------------------------------------------------------------- save_tokens

  /** A value assigned to a key inside a section that is not a table raises. */
  const NotAssignable: string := "TypeError: object does not support item assignment"

  /**
   * The document `save_tokens` writes: the existing one (empty when the file
   * is missing), with a `[strava]` section added when absent, and the three
   * token keys set in it.
   */
  function TokensSaved(existing: seq<(string, Toml)>, access: string, refresh: string, expiresAt: int): Outcome<seq<(string, Toml)>>
  {
    var withStrava := if Lookup(existing, "strava").None? then SetKey(existing, "strava", TTable([])) else existing;
    SetKeyMeaning(existing, "strava", TTable([]));
    match Lookup(withStrava, "strava").value
    case TTable(t) => Success(SetKey(withStrava, "strava", TTable(SetTokens(t, access, refresh, expiresAt))))
    case _ => Failure(NotAssignable)
  }

  /** The three token assignments on the `[strava]` table, in the order `save_tokens` makes them. */
  function SetTokens(t: seq<(string, Toml)>, access: string, refresh: string, expiresAt: int): seq<(string, Toml)>
  {
    SetKey(SetKey(SetKey(t, "access_token", TStr(access)), "refresh_token", TStr(refresh)),
           "token_expires_at", TInt(expiresAt))
  }

  /** The keys of a `[strava]` table once the tokens are set. */
  function TokenKeys(t: seq<(string, Toml)>): seq<string>
  {
    var k1 := if Lookup(t, "access_token").Some? then Keys(t) else Keys(t) + ["access_token"];
    var k2 := if "refresh_token" in k1 then k1 else k1 + ["refresh_token"];
    if "token_expires_at" in k2 then k2 else k2 + ["token_expires_at"]
  }

  lemma {:induction false} LookupKeys(t: seq<(string, Toml)>, key: string)
    ensures Lookup(t, key).Some? <==> key in Keys(t)
    decreases |t|
  {
    if t != [] {
      LookupKeys(t[1..], key);
      assert Keys(t) == [t[0].0] + Keys(t[1..]);
    }
  }

  /** The table holds the three tokens, every other key as before, and its keys in order. */
  lemma SetTokensMeaning(t: seq<(string, Toml)>, access: string, refresh: string, expiresAt: int)
    ensures var r := SetTokens(t, access, refresh, expiresAt);
            && Lookup(r, "access_token") == Some(TStr(access))
            && Lookup(r, "refresh_token") == Some(TStr(refresh))
            && Lookup(r, "token_expires_at") == Some(TInt(expiresAt))
            && (forall k :: k !in ["access_token", "refresh_token", "token_expires_at"] ==> Lookup(r, k) == Lookup(t, k))
            && Keys(r) == TokenKeys(t)
  {
    SetTokensLookups(t, access, refresh, expiresAt);
    SetTokensKeys(t, access, refresh, expiresAt);
  }

  lemma SetTokensLookups(t: seq<(string, Toml)>, access: string, refresh: string, expiresAt: int)
    ensures var r := SetTokens(t, access, refresh, expiresAt);
            && Lookup(r, "access_token") == Some(TStr(access))
            && Lookup(r, "refresh_token") == Some(TStr(refresh))
            && Lookup(r, "token_expires_at") == Some(TInt(expiresAt))
            && (forall k :: k !in ["access_token", "refresh_token", "token_expires_at"] ==> Lookup(r, k) == Lookup(t, k))
  {
    var a, f, e := "access_token", "refresh_token", "token_expires_at";
    var t1 := SetKey(t, a, TStr(access));
    var t2 := SetKey(t1, f, TStr(refresh));
    assert a != f && a != e && f != e by {
      assert a[0] == 'a' && f[0] == 'r' && e[0] == 't';
    }
    SetKeyFound(t, a, TStr(access));
    SetKeyOther(t1, f, TStr(refresh), a);
    SetKeyOther(t2, e, TInt(expiresAt), a);
    SetKeyFound(t1, f, TStr(refresh));
    SetKeyOther(t2, e, TInt(expiresAt), f);
    SetKeyFound(t2, e, TInt(expiresAt));
    forall k | k !in [a, f, e] ensures Lookup(SetKey(t2, e, TInt(expiresAt)), k) == Lookup(t, k) {
      SetKeyOther(t, a, TStr(access), k);
      SetKeyOther(t1, f, TStr(refresh), k);
      SetKeyOther(t2, e, TInt(expiresAt), k);
    }
  }

  lemma SetTokensKeys(t: seq<(string, Toml)>, access: string, refresh: string, expiresAt: int)
    ensures Keys(SetTokens(t, access, refresh, expiresAt)) == TokenKeys(t)
  {
    var t1 := SetKey(t, "access_token", TStr(access));
    var t2 := SetKey(t1, "refresh_token", TStr(refresh));
    SetKeyKeys(t, "access_token", TStr(access));
    SetKeyKeys(t1, "refresh_token", TStr(refresh));
    SetKeyKeys(t2, "token_expires_at", TInt(expiresAt));
    LookupKeys(t1, "refresh_token");
    LookupKeys(t2, "token_expires_at");
  }

  /**
   * `save_tokens` sets the three tokens in `[strava]` and keeps every other
   * key of `[strava]`, every other section, and the order of both.
   */
  lemma TokensSavedKeepsOthers(existing: seq<(string, Toml)>, access: string, refresh: string, expiresAt: int)
    requires TokensSaved(existing, access, refresh, expiresAt).Success?
    ensures var d := TokensSaved(existing, access, refresh, expiresAt).value;
            && Lookup(d, "strava").Some? && Lookup(d, "strava").value.TTable?
            && var t := Lookup(d, "strava").value.entries;
               && Lookup(t, "access_token") == Some(TStr(access))
               && Lookup(t, "refresh_token") == Some(TStr(refresh))
               && Lookup(t, "token_expires_at") == Some(TInt(expiresAt))
    ensures var d := TokensSaved(existing, access, refresh, expiresAt).value;
            && (forall k :: k != "strava" ==> Lookup(d, k) == Lookup(existing, k))
            && Keys(d) == if Lookup(existing, "strava").Some? then Keys(existing) else Keys(existing) + ["strava"]
    ensures var d := TokensSaved(existing, access, refresh, expiresAt).value;
            Lookup(existing, "strava").Some? ==>
              var before := Lookup(existing, "strava").value.entries;
              var t := Lookup(d, "strava").value.entries;
              && (forall k :: k !in ["access_token", "refresh_token", "token_expires_at"] ==> Lookup(t, k) == Lookup(before, k))
              && Keys(t) == TokenKeys(before)
  {
    var withStrava := if Lookup(existing, "strava").None? then SetKey(existing, "strava", TTable([])) else existing;
    SetKeyMeaning(existing, "strava", TTable([]));
    var t := Lookup(withStrava, "strava").value.entries;
    var t3 := SetTokens(t, access, refresh, expiresAt);
    SetTokensMeaning(t, access, refresh, expiresAt);
    SetKeyMeaning(withStrava, "strava", TTable(t3));
  }

  // ---------------------------------------------------------------- the Config object

  /** `Config`: the settings, updated in place by loading, the environment and `save_tokens`. */
  class Config {
    var strava: StravaConfig
    var directory: string
    var fittrackee: FitTrackeeConfig
    var sync: SyncConfig
    var configPath: Option<string>

    function Values(): Settings
      reads this
    {
      Settings(strava, directory, fittrackee, sync, configPath)
    }

    /** `Config()`. */
    constructor ()
      ensures Values() == Defaults()
    {
      strava := StravaConfig("", "", "", "", 0, []);
      directory := DefaultDataDir;
      fittrackee := FitTrackeeConfig("", "", "");
      sync := SyncConfig(true, true, true);
      configPath := None;
    }

    /** `_load_from_file`: the sections in turn; a section that raises stops the load there. */
    method LoadFromFile(data: seq<(string, Toml)>) returns (error: Option<string>)
      modifies this
      ensures (Values(), error) == LoadSections(old(Values()), data)
    {
      match StravaFrom(strava, data) {
        case Failure(e) => return Some(e);
        case Success(s) => strava := s;
      }
      match DirectoryFrom(directory, data) {
        case Failure(e) => return Some(e);
        case Success(d) => directory := d;
      }
      match FitTrackeeFrom(fittrackee, data) {
        case Failure(e) => return Some(e);
        case Success(f) => fittrackee := f;
      }
      match SyncFrom(sync, data) {
        case Failure(e) => return Some(e);
        case Success(s) => sync := s;
      }
      return None;
    }

    /** `_apply_env_overrides`. */
    method ApplyEnvOverrides(env: Env)
      modifies this
      ensures Values() == WithEnv(old(Values()), env)
    {
      strava := strava.(clientId := Override(EnvValue(env, "STRAVA_CLIENT_ID"), strava.clientId));
      strava := strava.(clientSecret := Override(EnvValue(env, "STRAVA_CLIENT_SECRET"), strava.clientSecret));
      directory := Override(EnvValue(env, "STRAVA_BACKUP_DATA_DIR"), directory);
      fittrackee := fittrackee.(url := Override(EnvValue(env, "FITTRACKEE_URL"), fittrackee.url));
      fittrackee := fittrackee.(email := Override(EnvValue(env, "FITTRACKEE_EMAIL"), fittrackee.email));
      fittrackee := fittrackee.(password := Override(EnvValue(env, "FITTRACKEE_PASSWORD"), fittrackee.password));
    }

    /**
     * `save_tokens` with `files` the parsed documents on disk: the path and
     * the text written, and the tokens set in memory. When `[strava]` is not
     * a table the assignment raises after the path is settled.
     */
    method SaveTokens(access: string, refresh: string, expiresAt: int, files: map<string, seq<(string, Toml)>>)
      returns (r: Outcome<(string, string)>)
      modifies this
      ensures configPath == Some(if old(configPath).Some? then old(configPath).value else DefaultConfigPath)
      ensures var existing := if configPath.value in files then files[configPath.value] else [];
              var saved := TokensSaved(existing, access, refresh, expiresAt);
              && (r.Success? <==> saved.Success?)
              && (r.Success? ==> r.value == (configPath.value, Join(TomlLines(saved.value), "\n")))
      ensures r.Success? ==> strava == old(strava).(accessToken := access, refreshToken := refresh, tokenExpiresAt := expiresAt)
      ensures r.Failure? ==> strava == old(strava)
      ensures directory == old(directory) && fittrackee == old(fittrackee) && sync == old(sync)
    {
      if configPath.None? {
        configPath := Some(DefaultConfigPath);
      }
      var path := configPath.value;
      var existing := if path in files then files[path] else [];
      var saved := TokensSaved(existing, access, refresh, expiresAt);
      if saved.Failure? {
        return Failure(saved.error);
      }
      var text := WriteToml(saved.value);
      strava := strava.(accessToken := access, refreshToken := refresh, tokenExpiresAt := expiresAt);
      return Success((path, text));
    }

    /** `load_config`. */
    static method Load(configPath: Option<string>, env: Env, files: map<string, seq<(string, Toml)>>)
      returns (r: Outcome<Config>)
      ensures r.Success? <==> LoadConfig(configPath, env, files).Success?
      ensures r.Success? ==> fresh(r.value) && r.value.Values() == LoadConfig(configPath, env, files).value
    {
      var config := new Config();
      var path := ConfigPath(configPath, env);
      config.configPath := Some(path);
      if path in files {
        var error := config.LoadFromFile(files[path]);
        if error.Some? {
          return Failure(error.value);
        }
      }
      config.ApplyEnvOverrides(env);
      return Success(config);
    }
  }
}

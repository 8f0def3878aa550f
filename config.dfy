/** The API service's settings (services/api/config.py): boolean
    environment flags and the defaults `get_settings` fills in.  The
    environment is a map parameter. */
module Config {
  import opened Wrappers
  import opened Text
  import opened Numbers

  type Env = map<string, string>

  /** `os.environ.get(key)`. */
  function Lookup(env: Env, key: string): (r: Option<string>)
    ensures r.Some? <==> key in env
    ensures r.Some? ==> r.value == env[key]
  {
    if key in env then Some(env[key]) else None
  }

  /** `os.environ.get(key, default)`. */
  function LookupOr(env: Env, key: string, default: string): (r: string)
    ensures key in env ==> r == env[key]
    ensures key !in env ==> r == default
  {
    if key in env then env[key] else default
  }

  const TrueWords: set<string> := {"1", "true", "yes", "on"}
  const FalseWords: set<string> := {"0", "false", "no", "off"}

  /** `_as_bool(value, default=default)`. */
  function AsBool(value: Option<string>, default: bool): (r: bool)
    ensures value.None? ==> r == default
  {
    match value
    case None => default
    case Some(v) =>
      var normalized := Lower(Strip(v));
      if normalized in TrueWords then true
      else if normalized in FalseWords then false
      else default
  }

  /** The truth table: a true word gives true, a false word false, and
      anything else the default. */
  lemma AsBoolWords(v: string, default: bool)
    ensures Lower(Strip(v)) in TrueWords ==> AsBool(Some(v), default)
    ensures Lower(Strip(v)) in FalseWords ==> !AsBool(Some(v), default)
    ensures Lower(Strip(v)) !in TrueWords + FalseWords ==> AsBool(Some(v), default) == default
  {
    if Lower(Strip(v)) in FalseWords {
      WordsDisjoint(Lower(Strip(v)));
    }
  }

  lemma WordsDisjoint(w: string)
    requires w in FalseWords
    ensures w !in TrueWords
  {
    if w == "0" || w == "no" {
      assert w[0] != '1' && w[0] != 't' && w[0] != 'y' && w[0] != 'o';
    } else if w == "false" {
      assert |w| == 5;
    } else {
      assert w == "off" && w[1] != 'n' && |w| == 3;
    }
  }

  /** The two word lists are disjoint, so the result departs from the
      default only for a word of the opposite list. */
  lemma AsBoolOverrides(value: Option<string>, default: bool)
    ensures AsBool(value, default) != default ==>
            value.Some? && Lower(Strip(value.value)) in (if default then FalseWords else TrueWords)
  {
  }

  datatype Settings = Settings(
    dataDir: Path,
    ocrDir: Path,
    journalPath: Path,
    jobsPath: Path,
    celeryBrokerUrl: string,
    celeryResultBackend: string,
    celeryTaskAlwaysEager: bool,
    jwtSecret: string,
    jwtAlgorithm: string,
    accessTokenMinutes: int,
    authEnabled: bool,
    defaultUserEmail: string,
    defaultUserPassword: string)

  /** An absolute file-system path, as its components below the root. */
  datatype Path = Path(parts: seq<string>)

  /** A component a resolved path can hold: not empty, not `.` or `..`,
      and without a separator. */
  predicate Proper(c: string) {
    c != "" && c != "." && c != ".." && '/' !in c
  }

  predicate AllProper(parts: seq<string>) {
    forall k :: 0 <= k < |parts| ==> Proper(parts[k])
  }

  /** One component of the path being resolved: an empty one (from a
      repeated or trailing `/`) and `.` change nothing, `..` steps up but
      never above the root, and any other name goes one level down. */
  function StepInto(parts: seq<string>, c: string): (r: seq<string>)
    ensures AllProper(parts) && '/' !in c ==> AllProper(r)
  {
    if c == "" || c == "." then parts
    else if c == ".." then (if parts == [] then [] else parts[..|parts| - 1])
    else parts + [c]
  }

  /** Reads `text` one character at a time; `cur` is the component read so
      far, and each `/` and the end of the text close it. */
  function Walk(parts: seq<string>, cur: string, text: string): (r: seq<string>)
    decreases |text|
    ensures AllProper(parts) && '/' !in cur ==> AllProper(r)
  {
    if text == [] then StepInto(parts, cur)
    else if text[0] == '/' then Walk(StepInto(parts, cur), "", text[1..])
    else Walk(parts, cur + [text[0]], text[1..])
  }

  /** `Path(text).resolve()` in the working directory `cwd`: a text that
      starts with `/` is taken from the root, any other from `cwd`. */
  function Resolve(cwd: Path, text: string): (p: Path)
    ensures AllProper(cwd.parts) ==> AllProper(p.parts)
  {
    Path(Walk(if text != [] && text[0] == '/' then [] else cwd.parts, "", text))
  }

  /** `path / name` for a single component `name`. */
  function Join(dir: Path, name: string): (p: Path)
    ensures |p.parts| == |dir.parts| + 1 && p.parts[..|dir.parts|] == dir.parts && p.parts[|dir.parts|] == name
  {
    Path(dir.parts + [name])
  }

  /** A trailing `/` changes nothing in the walk. */
  lemma {:induction false} WalkTrailingSlash(parts: seq<string>, cur: string, text: string)
    ensures Walk(parts, cur, text + "/") == Walk(parts, cur, text)
    decreases |text|
  {
    if text == [] {
      assert Walk(parts, cur, "/") == Walk(StepInto(parts, cur), "", []);
    } else {
      assert (text + "/")[0] == text[0] && (text + "/")[1..] == text[1..] + "/";
      if text[0] == '/' {
        WalkTrailingSlash(StepInto(parts, cur), "", text[1..]);
      } else {
        WalkTrailingSlash(parts, cur + [text[0]], text[1..]);
      }
    }
  }

  /** `Path("x/").resolve()` is `Path("x").resolve()`: a trailing separator
      never reaches the derived paths. */
  lemma ResolveTrailingSlash(cwd: Path, text: string)
    requires text != []
    ensures Resolve(cwd, text + "/") == Resolve(cwd, text)
  {
    assert (text + "/")[0] == text[0];
    WalkTrailingSlash(if text[0] == '/' then [] else cwd.parts, "", text);
  }

  /** A relative name of one proper component resolves to that directory
      right under `cwd`. */
  lemma ResolveName(cwd: Path, name: string)
    requires Proper(name)
    ensures Resolve(cwd, name) == Join(cwd, name)
  {
    WalkName(cwd.parts, name, 0);
  }

  lemma {:induction false} WalkName(parts: seq<string>, name: string, i: nat)
    requires Proper(name) && i <= |name|
    ensures Walk(parts, name[..i], name[i..]) == parts + [name]
    decreases |name| - i
  {
    if i == |name| {
      assert name[..i] == name;
      assert name[i..] == [];
    } else {
      assert name[i] != '/' by { assert name[i] in name; }
      assert name[..i] + [name[i]] == name[..i + 1];
      assert name[i..][1..] == name[i + 1..];
      WalkName(parts, name, i + 1);
    }
  }

  /** `celery_task_always_eager`: `CELERY_TASK_ALWAYS_EAGER`, falling back
      on `API_FORCE_EAGER`, falling back on true. */
  function Eager(env: Env): bool {
    AsBool(Lookup(env, "CELERY_TASK_ALWAYS_EAGER"), AsBool(Lookup(env, "API_FORCE_EAGER"), true))
  }

  /** `get_settings()` on the given environment and working directory; a
      non-integer `API_JWT_EXPIRES_MINUTES` is the `ValueError` of `int()`. */
  function GetSettings(env: Env, cwd: Path): (r: Result<Settings>)
    ensures r.Err? <==> ParseInt(LookupOr(env, "API_JWT_EXPIRES_MINUTES", "60")).None?
    ensures r.Ok? ==> Some(r.value.accessTokenMinutes) == ParseInt(LookupOr(env, "API_JWT_EXPIRES_MINUTES", "60"))
  {
    var dataRoot := Resolve(cwd, LookupOr(env, "DATA_DIR", "data"));
    var broker := LookupOr(env, "CELERY_BROKER_URL", "redis://localhost:6379/0");
    var backend := LookupOr(env, "CELERY_RESULT_BACKEND", broker);
    var minutesText := LookupOr(env, "API_JWT_EXPIRES_MINUTES", "60");
    match ParseInt(minutesText)
    case None => Err(ValueError("invalid literal for int() with base 10: '" + minutesText + "'"))
    case Some(minutes) =>
      Ok(Settings(
        dataRoot,
        Join(dataRoot, "ocr"),
        Join(dataRoot, "journal.json"),
        Join(dataRoot, "jobs.json"),
        broker,
        backend,
        Eager(env),
        LookupOr(env, "API_JWT_SECRET", "dev-secret"),
        LookupOr(env, "API_JWT_ALGORITHM", "HS256"),
        minutes,
        AsBool(Lookup(env, "API_AUTH_ENABLED"), true),
        LookupOr(env, "API_DEFAULT_USER_EMAIL", "admin@example.com"),
        LookupOr(env, "API_DEFAULT_USER_PASSWORD", "adminpass")))
  }

  /** Eager mode: an explicit `CELERY_TASK_ALWAYS_EAGER` word decides;
      otherwise `API_FORCE_EAGER` does; otherwise it is on. */
  lemma EagerResolution(env: Env)
    ensures "CELERY_TASK_ALWAYS_EAGER" in env && Lower(Strip(env["CELERY_TASK_ALWAYS_EAGER"])) in TrueWords ==> Eager(env)
    ensures "CELERY_TASK_ALWAYS_EAGER" in env && Lower(Strip(env["CELERY_TASK_ALWAYS_EAGER"])) in FalseWords ==> !Eager(env)
    ensures "CELERY_TASK_ALWAYS_EAGER" !in env ==> Eager(env) == AsBool(Lookup(env, "API_FORCE_EAGER"), true)
    ensures "CELERY_TASK_ALWAYS_EAGER" !in env && "API_FORCE_EAGER" !in env ==> Eager(env)
  {
    if "CELERY_TASK_ALWAYS_EAGER" in env {
      AsBoolWords(env["CELERY_TASK_ALWAYS_EAGER"], AsBool(Lookup(env, "API_FORCE_EAGER"), true));
    }
  }

  /** The derived settings: the data directory is `DATA_DIR` (default
      `data`) resolved in the working directory, the three paths sit right
      under it, and the result backend defaults to the broker. */
  lemma SettingsDerived(env: Env, cwd: Path)
    requires GetSettings(env, cwd).Ok?
    ensures var s := GetSettings(env, cwd).value;
            s.ocrDir == Join(s.dataDir, "ocr") &&
            s.journalPath == Join(s.dataDir, "journal.json") &&
            s.jobsPath == Join(s.dataDir, "jobs.json") &&
            ("DATA_DIR" in env ==> s.dataDir == Resolve(cwd, env["DATA_DIR"])) &&
            ("DATA_DIR" !in env ==> s.dataDir == Join(cwd, "data")) &&
            (AllProper(cwd.parts) ==> AllProper(s.dataDir.parts)) &&
            ("CELERY_RESULT_BACKEND" !in env ==> s.celeryResultBackend == s.celeryBrokerUrl) &&
            ("CELERY_BROKER_URL" !in env ==> s.celeryBrokerUrl == "redis://localhost:6379/0")
  {
    var s := GetSettings(env, cwd).value;
    var dataRoot := Resolve(cwd, LookupOr(env, "DATA_DIR", "data"));
    var broker := LookupOr(env, "CELERY_BROKER_URL", "redis://localhost:6379/0");
    assert s.dataDir == dataRoot;
    assert s.ocrDir == Join(dataRoot, "ocr");
    assert s.journalPath == Join(dataRoot, "journal.json");
    assert s.jobsPath == Join(dataRoot, "jobs.json");
    assert s.celeryBrokerUrl == broker;
    assert s.celeryResultBackend == LookupOr(env, "CELERY_RESULT_BACKEND", broker);
    if "DATA_DIR" !in env {
      ResolveName(cwd, "data");
    }
  }

  /** An empty environment gives the documented defaults, with the data
      directory `data` under the working directory. */
  lemma DefaultSettings(cwd: Path)
    ensures var data := Join(cwd, "data");
            GetSettings(map[], cwd) == Ok(Settings(
              data, Join(data, "ocr"), Join(data, "journal.json"), Join(data, "jobs.json"),
              "redis://localhost:6379/0", "redis://localhost:6379/0", true,
              "dev-secret", "HS256", 60, true, "admin@example.com", "adminpass"))
  {
    ResolveName(cwd, "data");
    assert NatToString(6) == "6";
    assert NatToString(60) == NatToString(6) + [DigitChar(0)];
    assert IntToString(60) == "60";
    ParseIntOfString(60);
  }
}

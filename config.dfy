/**
 * `get_settings` of `app/config.py` as a function of the process
 * environment: every setting comes from one variable, with a default when the
 * variable is unset.
 */
module Config {
  import opened Wrappers
  import opened JsonValue

  type Env = map<string, string>

  /** `os.getenv(name, default)`: the default only when the variable is unset; a set-but-empty value is kept. */
  function GetEnv(env: Env, name: string, default: string): (r: string)
    ensures name in env ==> r == env[name]
    ensures name !in env ==> r == default
  {
    if name in env then env[name] else default
  }

  /**
   * `parse_json_env`: the default when the variable is unset or empty, or
   * when its value is not valid JSON; otherwise the parsed value. `loads`
   * stands for `json.loads`, None meaning a JSONDecodeError.
   */
  function ParseJsonEnv(env: Env, name: string, default: Json, loads: string -> Option<Json>): (r: Json)
    ensures name !in env || env[name] == "" ==> r == default
    ensures name in env && env[name] != "" && loads(env[name]).None? ==> r == default
    ensures name in env && env[name] != "" && loads(env[name]).Some? ==> r == loads(env[name]).value
  {
    if name !in env || env[name] == "" then default
    else
      match loads(env[name])
      case Some(v) => v
      case None => default
  }

  // ---- str.lower() ----

  function LowerChar(c: char): char {
    if 'A' <= c <= 'Z' then (c as int + 32) as char else c
  }

  /** `s.lower()` on ASCII letters; every other character is kept. */
  function Lower(s: string): (r: string)
    ensures |r| == |s|
    ensures forall i :: 0 <= i < |s| ==> r[i] == LowerChar(s[i])
  {
    if s == [] then [] else [LowerChar(s[0])] + Lower(s[1..])
  }

  /** `v.lower() == "true"`, the test behind every boolean setting. */
  predicate IsTrue(v: string) {
    Lower(v) == "true"
  }

  /** The flag is true exactly for "true" written in any mix of cases. */
  lemma IsTrueIff(v: string)
    ensures IsTrue(v) <==>
      |v| == 4 && v[0] in "tT" && v[1] in "rR" && v[2] in "uU" && v[3] in "eE"
  {
  }

  lemma IsTrueExamples()
    ensures IsTrue("TRUE") && IsTrue("True") && IsTrue("true")
    ensures !IsTrue("yes") && !IsTrue("1") && !IsTrue("")
  {
  }

  // ---- int() ----

  /** The ASCII characters Python counts as whitespace. */
  predicate IsSpace(c: char) {
    c == ' ' || '\t' <= c <= '\r' || '\U{1C}' <= c <= '\U{1F}'
  }

  predicate IsDigit(c: char) {
    '0' <= c <= '9'
  }

  function TrimStart(s: string): (r: string)
    ensures |r| <= |s| && r == s[|s| - |r|..]
    ensures r == [] || !IsSpace(r[0])
    ensures forall i :: 0 <= i < |s| - |r| ==> IsSpace(s[i])
  {
    if s != [] && IsSpace(s[0]) then TrimStart(s[1..]) else s
  }

  function TrimEnd(s: string): (r: string)
    ensures |r| <= |s| && r == s[..|r|]
    ensures r == [] || !IsSpace(r[|r| - 1])
    ensures forall i :: |r| <= i < |s| ==> IsSpace(s[i])
  {
    if s != [] && IsSpace(s[|s| - 1]) then TrimEnd(s[..|s| - 1]) else s
  }

  /** `s.strip()` over ASCII whitespace. */
  function Strip(s: string): string {
    TrimEnd(TrimStart(s))
  }

  /** The value of a string of decimal digits. */
  function DigitsValue(ds: string): nat
    requires forall i :: 0 <= i < |ds| ==> IsDigit(ds[i])
    decreases |ds|
  {
    if ds == [] then 0
    else
      assert IsDigit(ds[|ds| - 1]);
      DigitsValue(ds[..|ds| - 1]) * 10 + (ds[|ds| - 1] as int - '0' as int)
  }

  predicate AllDigits(ds: string) {
    ds != [] && forall i :: 0 <= i < |ds| ==> IsDigit(ds[i])
  }

  /** One optional sign followed by at least one decimal digit. */
  predicate IsIntLiteral(t: string) {
    AllDigits(t) || (t != [] && (t[0] == '+' || t[0] == '-') && AllDigits(t[1..]))
  }

  /**
   * `int(s)` in base 10: surrounding whitespace is ignored, one optional
   * sign, then at least one decimal digit; anything else is a ValueError (None).
   */
  function ParseInt(s: string): (r: Option<int>)
    ensures r.Some? <==> IsIntLiteral(Strip(s))
    ensures r.Some? && Strip(s)[0] == '-' ==> r.value <= 0
    ensures r.Some? && Strip(s)[0] != '-' ==> r.value >= 0
  {
    var t := Strip(s);
    if t != [] && (t[0] == '+' || t[0] == '-') then
      if AllDigits(t[1..]) then
        var magnitude: int := DigitsValue(t[1..]);
        Some(if t[0] == '-' then -magnitude else magnitude)
      else None
    else if AllDigits(t) then Some(DigitsValue(t))
    else None
  }

  /** The decimal digits of `n`, as `str(n)` writes them. */
  function Digits(n: nat): (r: string)
    ensures AllDigits(r)
    decreases n
  {
    if n < 10 then ['0' + n as char] else Digits(n / 10) + ['0' + (n % 10) as char]
  }

  /** `str(n)` for any integer. */
  function IntToString(n: int): string {
    if n < 0 then "-" + Digits(-n) else Digits(n)
  }

  lemma {:induction false} DigitsValueOfDigits(n: nat)
    ensures DigitsValue(Digits(n)) == n
    decreases n
  {
    var ds := Digits(n);
    if n >= 10 {
      DigitsValueOfDigits(n / 10);
      assert ds[..|ds| - 1] == Digits(n / 10);
    }
  }

  lemma StripUnpadded(s: string)
    requires s != [] && !IsSpace(s[0]) && !IsSpace(s[|s| - 1])
    ensures Strip(s) == s
  {
  }

  /** `int(str(n)) == n`: ParseInt reads back every integer it would print. */
  lemma ParseIntRoundTrip(n: int)
    ensures ParseInt(IntToString(n)) == Some(n)
  {
    var s := IntToString(n);
    var ds := if n < 0 then Digits(-n) else Digits(n);
    assert !IsSpace(ds[|ds| - 1]);
    StripUnpadded(s);
    if n < 0 {
      assert s[1..] == ds;
      DigitsValueOfDigits(-n);
    } else {
      DigitsValueOfDigits(n);
    }
  }

  /** `int("")` raises: nothing is left after stripping. */
  lemma ParseIntRejectsEmpty()
    ensures ParseInt("") == None
  {
  }

  /** `int("abc")` raises: a word is not a number. */
  lemma ParseIntRejectsWord()
    ensures ParseInt("abc") == None
  {
  }

  // ---- the settings record ----

  datatype CorsSettings = CorsSettings(origins: Json, methods: Json, headers: Json, credentials: bool)
  datatype ApiSettings = ApiSettings(port: int, host: string, workers: int, timeout: int)
  datatype AppSettings = AppSettings(debug: bool, name: string, version: string, dataDir: string)
  datatype LogSettings = LogSettings(level: string, format: string)
  datatype Settings = Settings(cors: CorsSettings, api: ApiSettings, app: AppSettings, log: LogSettings)

  /** The ValueError `int()` raises, which makes `get_settings` fail. */
  datatype ConfigError = InvalidInt(variable: string, value: string)

  const DefaultOrigins: Json := StringArray(["*"])
  const DefaultMethods: Json := StringArray(["GET", "POST", "PUT", "DELETE", "OPTIONS"])
  const DefaultHeaders: Json := StringArray(["Content-Type", "Authorization", "X-API-KEY"])

  /**
   * Lines 67-70: each CORS list is the parsed variable when it is set,
   * non-empty and valid JSON, and its default otherwise; credentials are on
   * unless the variable is set to something other than "true" in some case.
   */
  function CorsFromEnv(env: Env, loads: string -> Option<Json>): (r: CorsSettings)
    ensures r.origins == (if JsonIsSet(env, "CORS_ORIGINS", loads) then loads(env["CORS_ORIGINS"]).value else DefaultOrigins)
    ensures r.methods == (if JsonIsSet(env, "CORS_METHODS", loads) then loads(env["CORS_METHODS"]).value else DefaultMethods)
    ensures r.headers == (if JsonIsSet(env, "CORS_HEADERS", loads) then loads(env["CORS_HEADERS"]).value else DefaultHeaders)
    ensures r.credentials <==> ("CORS_CREDENTIALS" !in env || Lower(env["CORS_CREDENTIALS"]) == "true")
  {
    CorsSettings(
      ParseJsonEnv(env, "CORS_ORIGINS", DefaultOrigins, loads),
      ParseJsonEnv(env, "CORS_METHODS", DefaultMethods, loads),
      ParseJsonEnv(env, "CORS_HEADERS", DefaultHeaders, loads),
      IsTrue(GetEnv(env, "CORS_CREDENTIALS", "true")))
  }

  /** The variable holds JSON text that `parse_json_env` accepts. */
  predicate JsonIsSet(env: Env, name: string, loads: string -> Option<Json>) {
    name in env && env[name] != "" && loads(env[name]).Some?
  }

  /** `int(os.getenv(name, default))`, failing on a value `int()` rejects. */
  function IntEnv(env: Env, name: string, default: string): (r: Result<int, ConfigError>)
    ensures r.Success? <==> ParseInt(GetEnv(env, name, default)).Some?
    ensures r.Success? ==> Some(r.value) == ParseInt(GetEnv(env, name, default))
    ensures r.Failure? ==> r.error == InvalidInt(name, GetEnv(env, name, default))
  {
    var v := GetEnv(env, name, default);
    match ParseInt(v)
    case Some(n) => Success(n)
    case None => Failure(InvalidInt(name, v))
  }

  /**
   * Lines 73-76: port, host, workers and timeout. The integers are parsed
   * in that order, so the error is that of the first one `int()` rejects.
   */
  function ApiFromEnv(env: Env): (r: Result<ApiSettings, ConfigError>)
    ensures r.Success? <==> IntsParse(env)
    ensures r.Success? ==> r.value == ExpectedApi(env)
    ensures r.Failure? ==> r.error == FirstIntError(env)
  {
    var port :- IntEnv(env, "API_PORT", "8000");
    var host := GetEnv(env, "API_HOST", "0.0.0.0");
    var workers :- IntEnv(env, "API_WORKERS", "4");
    var timeout :- IntEnv(env, "API_TIMEOUT", "300");
    Success(ApiSettings(port, host, workers, timeout))
  }

  /** Lines 79-82: `debug` iff DEBUG lower-cases to "true"; the strings are the variables when set, even to "". */
  function AppFromEnv(env: Env): (r: AppSettings)
    ensures r.debug <==> ("DEBUG" in env && Lower(env["DEBUG"]) == "true")
    ensures r.name == (if "APP_NAME" in env then env["APP_NAME"] else "AI_Assist")
    ensures r.version == (if "APP_VERSION" in env then env["APP_VERSION"] else "1.0.0")
    ensures r.dataDir == (if "DATA_DIR" in env then env["DATA_DIR"] else "./backend/app/files")
  {
    AppSettings(
      IsTrue(GetEnv(env, "DEBUG", "false")),
      GetEnv(env, "APP_NAME", "AI_Assist"),
      GetEnv(env, "APP_VERSION", "1.0.0"),
      GetEnv(env, "DATA_DIR", "./backend/app/files"))
  }

  /** Lines 85-86: the variables when set, even to "", else "info" and "json". */
  function LogFromEnv(env: Env): (r: LogSettings)
    ensures r.level == (if "LOG_LEVEL" in env then env["LOG_LEVEL"] else "info")
    ensures r.format == (if "LOG_FORMAT" in env then env["LOG_FORMAT"] else "json")
  {
    LogSettings(GetEnv(env, "LOG_LEVEL", "info"), GetEnv(env, "LOG_FORMAT", "json"))
  }

  /** The three integer settings all parse. */
  predicate IntsParse(env: Env) {
    && ParseInt(GetEnv(env, "API_PORT", "8000")).Some?
    && ParseInt(GetEnv(env, "API_WORKERS", "4")).Some?
    && ParseInt(GetEnv(env, "API_TIMEOUT", "300")).Some?
  }

  /** The API settings when all three integers parse. */
  function ExpectedApi(env: Env): ApiSettings
    requires IntsParse(env)
  {
    ApiSettings(
      ParseInt(GetEnv(env, "API_PORT", "8000")).value,
      GetEnv(env, "API_HOST", "0.0.0.0"),
      ParseInt(GetEnv(env, "API_WORKERS", "4")).value,
      ParseInt(GetEnv(env, "API_TIMEOUT", "300")).value)
  }

  /** The ValueError of the first integer, in the order port, workers, timeout, that does not parse. */
  function FirstIntError(env: Env): ConfigError {
    if ParseInt(GetEnv(env, "API_PORT", "8000")).None? then
      InvalidInt("API_PORT", GetEnv(env, "API_PORT", "8000"))
    else if ParseInt(GetEnv(env, "API_WORKERS", "4")).None? then
      InvalidInt("API_WORKERS", GetEnv(env, "API_WORKERS", "4"))
    else
      InvalidInt("API_TIMEOUT", GetEnv(env, "API_TIMEOUT", "300"))
  }

  /**
   * `get_settings`: fails only when one of the three integer settings does
   * not parse, with the ValueError of the first such one; otherwise every
   * group of settings is read from its own variables.
   */
  function GetSettings(env: Env, loads: string -> Option<Json>): (r: Result<Settings, ConfigError>)
    ensures r.Success? <==> IntsParse(env)
    ensures r.Success? ==> r.value.api == ExpectedApi(env)
    ensures r.Success? ==> r.value.cors == CorsFromEnv(env, loads)
    ensures r.Success? ==> r.value.app == AppFromEnv(env) && r.value.log == LogFromEnv(env)
    ensures ParseInt(GetEnv(env, "API_PORT", "8000")).None? ==>
      r == Failure(InvalidInt("API_PORT", GetEnv(env, "API_PORT", "8000")))
    ensures ParseInt(GetEnv(env, "API_PORT", "8000")).Some? && ParseInt(GetEnv(env, "API_WORKERS", "4")).None? ==>
      r == Failure(InvalidInt("API_WORKERS", GetEnv(env, "API_WORKERS", "4")))
    ensures && ParseInt(GetEnv(env, "API_PORT", "8000")).Some? && ParseInt(GetEnv(env, "API_WORKERS", "4")).Some?
            && ParseInt(GetEnv(env, "API_TIMEOUT", "300")).None? ==>
      r == Failure(InvalidInt("API_TIMEOUT", GetEnv(env, "API_TIMEOUT", "300")))
  {
    var api :- ApiFromEnv(env);
    Success(Settings(CorsFromEnv(env, loads), api, AppFromEnv(env), LogFromEnv(env)))
  }

  /** Every variable `get_settings` reads. */
  const SettingsVariables: set<string> := {
    "CORS_ORIGINS", "CORS_METHODS", "CORS_HEADERS", "CORS_CREDENTIALS",
    "API_PORT", "API_HOST", "API_WORKERS", "API_TIMEOUT",
    "DEBUG", "APP_NAME", "APP_VERSION", "DATA_DIR", "LOG_LEVEL", "LOG_FORMAT"}

  /** The settings of an environment that sets none of the variables. */
  const DefaultSettings: Settings := Settings(
    CorsSettings(DefaultOrigins, DefaultMethods, DefaultHeaders, true),
    ApiSettings(8000, "0.0.0.0", 4, 300),
    AppSettings(false, "AI_Assist", "1.0.0", "./backend/app/files"),
    LogSettings("info", "json"))

  /** The default port string parses to 8000. */
  lemma DefaultPortParses()
    ensures ParseInt("8000") == Some(8000)
  {
    assert Digits(8) == "8";
    assert Digits(80) == "80";
    assert Digits(800) == "800";
    assert Digits(8000) == "8000";
    ParseIntRoundTrip(8000);
  }

  /** The default worker count string parses to 4. */
  lemma DefaultWorkersParse()
    ensures ParseInt("4") == Some(4)
  {
    assert Digits(4) == "4";
    ParseIntRoundTrip(4);
  }

  /** The default timeout string parses to 300. */
  lemma DefaultTimeoutParses()
    ensures ParseInt("300") == Some(300)
  {
    assert Digits(3) == "3";
    assert Digits(30) == "30";
    assert Digits(300) == "300";
    ParseIntRoundTrip(300);
  }

  /** With none of its variables set, `get_settings` succeeds with every default. */
  lemma DefaultsWhenUnset(env: Env, loads: string -> Option<Json>)
    requires forall v :: v in SettingsVariables ==> v !in env
    ensures GetSettings(env, loads) == Success(DefaultSettings)
  {
    DefaultPortParses();
    DefaultWorkersParse();
    DefaultTimeoutParses();
    assert ApiFromEnv(env) == Success(ApiSettings(8000, "0.0.0.0", 4, 300));
    IsTrueExamples();
    IsTrueIff("false");
    assert CorsFromEnv(env, loads) == DefaultSettings.cors;
    assert AppFromEnv(env) == DefaultSettings.app;
  }

  /** Each of the six string settings is its variable whenever that is set, even to "", and its default otherwise. */
  lemma StringSettingsFollowEnv(env: Env, loads: string -> Option<Json>)
    requires IntsParse(env)
    ensures
      var st := GetSettings(env, loads).value;
      && st.api.host == (if "API_HOST" in env then env["API_HOST"] else "0.0.0.0")
      && st.app.name == (if "APP_NAME" in env then env["APP_NAME"] else "AI_Assist")
      && st.app.version == (if "APP_VERSION" in env then env["APP_VERSION"] else "1.0.0")
      && st.app.dataDir == (if "DATA_DIR" in env then env["DATA_DIR"] else "./backend/app/files")
      && st.log.level == (if "LOG_LEVEL" in env then env["LOG_LEVEL"] else "info")
      && st.log.format == (if "LOG_FORMAT" in env then env["LOG_FORMAT"] else "json")
    ensures
      var st := GetSettings(env, loads).value;
      && ("API_HOST" in env && env["API_HOST"] == "" ==> st.api.host == "")
      && ("APP_NAME" in env && env["APP_NAME"] == "" ==> st.app.name == "")
      && ("APP_VERSION" in env && env["APP_VERSION"] == "" ==> st.app.version == "")
      && ("DATA_DIR" in env && env["DATA_DIR"] == "" ==> st.app.dataDir == "")
      && ("LOG_LEVEL" in env && env["LOG_LEVEL"] == "" ==> st.log.level == "")
      && ("LOG_FORMAT" in env && env["LOG_FORMAT"] == "" ==> st.log.format == "")
  {
  }

  /** A JSON list setting to "[]" gives the empty list, not the default. */
  lemma EmptyListIsKept(env: Env, loads: string -> Option<Json>)
    requires "CORS_ORIGINS" in env && env["CORS_ORIGINS"] == "[]"
    requires loads("[]") == Some(JArray([]))
    ensures CorsFromEnv(env, loads).origins == JArray([])
  {
  }

  /** A port set to the empty string is not the default: `int("")` raises. */
  lemma EmptyPortFails(env: Env, loads: string -> Option<Json>)
    requires "API_PORT" in env && env["API_PORT"] == ""
    ensures GetSettings(env, loads) == Failure(InvalidInt("API_PORT", ""))
  {
  }
}

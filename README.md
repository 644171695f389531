# AI Assist backend: discovery store, info summary and settings

This project models in Dafny the logic of the AI Assist FastAPI backend and proves properties about it.

- **Discovery store** (`app/api/discovery.py`). At import, the backend tries three JSON files (`home.json`, `appfoundry.json`, `modelgarden.json`) in that order. Each file that exists and parses is stored in the module-level dict `discovery_data`. Its key is the file name with `.json` removed. A missing or broken file is skipped and the loop goes on. `GET /api/v1/get_pages/{id}` looks an id up by exact key. It answers with the document and status 200, or with status 404 and `{"detail": "Discovery '<id>' not found"}`.
- **Introspection endpoints** (`app/main.py`). `/health` returns a constant body. `/info` summarises the store: the loaded keys, and a home section with the `len` and truthiness of `home["application"]`. For each loaded application document, it also gives the name, version, page count and blueprint or provider count. Any `AttributeError` or `TypeError` raised along the way produces a degraded body that still reports `"operational"`.
- **Settings** (`app/config.py`). `get_settings` builds the settings record from environment variables. Each has a default.

Modules:

- `Wrappers` (wrappers.dfy) holds `Option` and `Result`.
- `JsonValue` (json.dfy) holds the parsed-JSON datatype.
- `PyRuntime` (pyruntime.dfy) holds the Python built-ins the summary applies to documents: `len`, `bool` and `dict.get`. It also holds the exceptions they raise, with Python's wording.
- `Discovery` (discovery.dfy) models the store. `Dict` is a Python dict as a value: its entries plus the order in which keys were first inserted. The class `Store` holds `discovery_data`. `Store.Load` is the loading loop and is proved against the function `LoadFiles`. `Store.Lookup` is `get_discovery`.
- `AppMain` (appmain.dfy) models `health_check` and `api_info`.
- `Config` (config.dfy) models `get_settings` and `parse_json_env` as functions of an environment map.

The file system and `json.load` / `json.loads` are parameters. `FileSystem.present` stands for `os.path.exists` on the file's path. `FileSystem.read` stands for opening the file and `json.load`, with `None` when either raises. In `Config`, `loads` stands for `json.loads`, with `None` for a `JSONDecodeError`. The environment is a `map<string, string>`, read after `load_dotenv` has run.

In two places the code behaves differently from what one might expect, and the model follows the code:

- A loaded application document without its nested object does not drop its section. The section is present, with null name and version and zero counts.
- The order of `data_sources` is not order-independent: it follows the file order (`LoadedOrder`).

## Model

| member | source | states |
|---|---|---|
| `Discovery.RemoveAll` | AI_Assist/backend/app/api/discovery.py:23 | `str.replace(pat, "")`: the result is never longer than the input, and a string without `pat` is returned unchanged |
| `Discovery.StoreKey` | AI_Assist/backend/app/api/discovery.py:23 | the store key is never longer than the file name, and a name without `.json` is its own key |
| `Discovery.StoreKeyOfStem` | AI_Assist/backend/app/api/discovery.py:23 | a file name whose stem has no dot is stored under that stem (`"home.json"` becomes `"home"`) |
| `Discovery.DiscoveryFileKeys` | AI_Assist/backend/app/api/discovery.py:17-23 | the three fixed files are stored under `"home"`, `"appfoundry"` and `"modelgarden"`, no two under the same key |
| `Discovery.Dict.Put` | AI_Assist/backend/app/api/discovery.py:23 | dict assignment: the key maps to the new document and every other entry is unchanged; a new key goes last in key order, and an existing key keeps its place; the dict invariant is kept |
| `Discovery.LoadOne` | AI_Assist/backend/app/api/discovery.py:19-26 | one loop iteration: a file that exists and parses is stored under its key (a new key goes last, an old one keeps its place); a missing or unparsable file leaves the dict unchanged; the dict invariant is kept |
| `Discovery.LoadFiles` | AI_Assist/backend/app/api/discovery.py:16-26 | the loading loop as a fold over the file list; it keeps the dict invariant |
| `Discovery.Store.constructor` | AI_Assist/backend/app/api/discovery.py:13-14 | the store starts as the empty dict |
| `Discovery.Store.Load` | AI_Assist/backend/app/api/discovery.py:16-26 | the loop over the three files leaves exactly `LoadFiles` of the old dict; every file is tried, and a missing or unparsable file is skipped without stopping the loop |
| `Discovery.Startup` | AI_Assist/backend/app/api/discovery.py:28-29 | importing the module yields a fresh store holding `Loaded(fs)` |
| `Discovery.LoadFilesEntries` | AI_Assist/backend/app/api/discovery.py:18-23 | after loading, the dict is the old dict overwritten with the documents of the files that exist and parse; no other entry changes |
| `Discovery.UpdatesKeys` | AI_Assist/backend/app/api/discovery.py:20-23 | a key is written iff some file with that key exists and parses |
| `Discovery.LoadFromEmpty` | AI_Assist/backend/app/api/discovery.py:14-23 | from the empty dict, the loaded entries are exactly the documents read |
| `Discovery.UpdatesEntry` | AI_Assist/backend/app/api/discovery.py:20-23 | when no two files share a key, a file's key is written iff the file loads, and it holds that file's document |
| `Discovery.LoadedEntry` | AI_Assist/backend/app/api/discovery.py:20-23 | after loading, a discovery key is present iff its file exists and parses, and its value is exactly the parsed document |
| `Discovery.LoadedKeysKnown` | AI_Assist/backend/app/api/discovery.py:17-23 | after loading, every key is one of `"home"`, `"appfoundry"`, `"modelgarden"` |
| `Discovery.OnlyOwnKey` | AI_Assist/backend/app/api/discovery.py:20-26 | a missing or broken file affects only its own key: two file systems that agree on one file give the same entry for its key |
| `Discovery.LoadFilesKeepsOrder` | AI_Assist/backend/app/api/discovery.py:23 | re-storing keys that are already present leaves the key order unchanged |
| `Discovery.LoadIdempotent` | AI_Assist/backend/app/api/discovery.py:16-26 | running the load a second time with the same files gives the same dict, in entries and in key order |
| `Discovery.LoadFilesOrder` | AI_Assist/backend/app/api/discovery.py:18-23 | from the empty dict, the key order is the order of the files that loaded |
| `Discovery.LoadedOrder` | AI_Assist/backend/app/api/discovery.py:17-23 | the loaded keys appear in file order: home, appfoundry, modelgarden, each only if its file loaded |
| `Discovery.Store.Lookup` | AI_Assist/backend/app/api/discovery.py:31-37 | reads the store and changes nothing; for a present id, status 200 with exactly the stored document; for an absent id, status 404 with `{"detail": "Discovery '<id>' not found"}` |
| `Discovery.LookupAfterLoad` | AI_Assist/backend/app/api/discovery.py:20-37 | after loading, looking up a discovery key returns its parsed document iff its file loaded, and the 404 body otherwise |
| `Discovery.LookupIsExact` | AI_Assist/backend/app/api/discovery.py:34-37 | after loading, any id other than the three keys is not found |
| `Discovery.LookupCaseSensitive` | AI_Assist/backend/app/api/discovery.py:34 | `"Home"` and `"home.json"` are not found: matching is exact |
| `PyRuntime.PyLen` | AI_Assist/backend/app/main.py:134 | `len` is defined exactly on str, list and dict, and gives their length |
| `PyRuntime.Truthy` | AI_Assist/backend/app/main.py:135 | `bool`: None is false, a bool is itself, a number is true iff non-zero, and a str, list or dict is true iff its `len` is positive |
| `PyRuntime.Len` | AI_Assist/backend/app/main.py:134 | `len` succeeds iff the value is sized; otherwise it raises `TypeError` naming the value's type |
| `PyRuntime.Get` | AI_Assist/backend/app/main.py:140 | `.get` succeeds iff the value is a dict; a present key wins over the default, even when its value is null; otherwise it raises `AttributeError` |
| `AppMain.HealthCheck` | AI_Assist/backend/app/main.py:106-109 | always `{"status": "healthy", "message": "AI Assist Backend is running"}`, with no other keys and no dependence on the store |
| `AppMain.HomeSection` | AI_Assist/backend/app/main.py:131-136 | the home section succeeds iff the home document is a dict whose `"application"` (default `{}`) has a `len`, and then gives that `len` and the truthiness of `"application"`; otherwise the `AttributeError` of `.get` on a non-dict or the `TypeError` of `len` |
| `AppMain.AppSection` | AI_Assist/backend/app/main.py:139-156 | an application section succeeds iff the document and its nested object are dicts and both lists have a `len`, and then gives name, version and the two lengths; otherwise the first exception in the source's evaluation order |
| `AppMain.Summarise` | AI_Assist/backend/app/main.py:117-158 | succeeds iff every loaded section is readable, and then gives the full summary with each section present iff its document is loaded; otherwise the exception of the first unreadable section, in the order home, appfoundry, modelgarden |
| `AppMain.ApiInfo` | AI_Assist/backend/app/main.py:112-170 | never fails; gives the full summary iff every loaded home/appfoundry/modelgarden document has the shape the summary reads, and otherwise the degraded result whose error starts with `Could not load data info: `, followed by the message of the exception the summary raised |
| `AppMain.FullSummary` | AI_Assist/backend/app/main.py:123-156 | on the normal path: `data_sources` is the store's key order; the home section is present iff home is loaded, with `len` and truthiness of `home["application"]`; each application entry is present iff its key is loaded, with name, version (null when absent) and list lengths (0 when absent) |
| `AppMain.AppBody` | AI_Assist/backend/app/main.py:141-145 | an application entry has exactly the keys `name`, `version`, `pages_count` and its list count, holding the section's values |
| `AppMain.HomeBody` | AI_Assist/backend/app/main.py:133-136 | the home entry has exactly `application_count` and `routes_available`, holding the section's count and flag |
| `AppMain.Applications` | AI_Assist/backend/app/main.py:128-156 | `applications` holds an `appfoundry` entry iff that section exists (with `blueprints_count`) and a `modelgarden` entry iff that section exists (with `providers_count`), and nothing else |
| `AppMain.Body` | AI_Assist/backend/app/main.py:117-170 | every body has the `api` section and status `"operational"`; a full body has exactly `api`, `data_sources` (the loaded keys), `status`, `applications` and, iff the home section exists, `home`, each holding its section's entry; a degraded body has exactly `api`, `status`, `data_sources` = `[]` and `error` |
| `AppMain.NonObjectDegrades` | AI_Assist/backend/app/main.py:132-150 | a loaded top-level document that is not an object degrades the summary |
| `AppMain.FoundryExample` | AI_Assist/backend/app/main.py:139-146 | the appfoundry example: name "Foundry", version "2.0", pages_count 3, blueprints_count 1 |
| `AppMain.FoundryBodyExample` | AI_Assist/backend/app/main.py:139-146 | the same document in the `/info` body: `applications` is `{"appfoundry": {"name": "Foundry", "version": "2.0", "pages_count": 3, "blueprints_count": 1}}` |
| `AppMain.NullApplicationExample` | AI_Assist/backend/app/main.py:134 | `home["application"]` present but null: `len(None)` raises and the body carries its message |
| `AppMain.ListHomeExample` | AI_Assist/backend/app/main.py:134 | a home document that is a list: `.get` raises `AttributeError` |
| `AppMain.NumericPagesExample` | AI_Assist/backend/app/main.py:154 | a page list that is a number: `len` of an int raises `TypeError` |
| `Config.GetEnv` | AI_Assist/backend/app/config.py:58 | `os.getenv`: the variable's value whenever it is set, even `""`, and the default only when it is unset |
| `Config.ParseJsonEnv` | AI_Assist/backend/app/config.py:57-64 | the default when the variable is unset or empty, or when its value is not valid JSON; otherwise the parsed value |
| `Config.EmptyListIsKept` | AI_Assist/backend/app/config.py:61-67 | `CORS_ORIGINS="[]"` gives the empty list, not the default |
| `Config.Lower` | AI_Assist/backend/app/config.py:70 | `lower()` keeps the length and lower-cases each character |
| `Config.IsTrueIff` | AI_Assist/backend/app/config.py:70 | a flag is true iff its value is "true" in any mix of cases |
| `Config.IsTrueExamples` | AI_Assist/backend/app/config.py:70 | `"TRUE"` and `"True"` are true; `"yes"`, `"1"` and `""` are false |
| `Config.TrimStart` | AI_Assist/backend/app/config.py:73 | the result is the suffix left after removing all leading whitespace: everything removed is whitespace, and the result does not start with whitespace |
| `Config.TrimEnd` | AI_Assist/backend/app/config.py:73 | the result is the prefix left after removing all trailing whitespace: everything removed is whitespace, and the result does not end with whitespace |
| `Config.ParseInt` | AI_Assist/backend/app/config.py:73-76 | `int()` succeeds iff the stripped text is one optional sign and at least one decimal digit; a `-` gives a non-positive value, otherwise the value is non-negative |
| `Config.Digits` | AI_Assist/backend/app/config.py:73 | `str(n)` of a natural number is a non-empty string of decimal digits |
| `Config.DigitsValueOfDigits` | AI_Assist/backend/app/config.py:73 | reading back the decimal digits of `n` gives `n` |
| `Config.ParseIntRoundTrip` | AI_Assist/backend/app/config.py:73-76 | `int(str(n)) == n` for every integer |
| `Config.ParseIntRejectsEmpty` | AI_Assist/backend/app/config.py:73 | `int("")` raises |
| `Config.ParseIntRejectsWord` | AI_Assist/backend/app/config.py:73 | `int("abc")` raises |
| `Config.DefaultPortParses` | AI_Assist/backend/app/config.py:73 | the default port string gives 8000 |
| `Config.DefaultWorkersParse` | AI_Assist/backend/app/config.py:75 | the default worker string gives 4 |
| `Config.DefaultTimeoutParses` | AI_Assist/backend/app/config.py:76 | the default timeout string gives 300 |
| `Config.IntEnv` | AI_Assist/backend/app/config.py:73-76 | succeeds iff the variable's value (or the default when unset) parses, and then gives that integer; otherwise fails naming the variable and value |
| `Config.CorsFromEnv` | AI_Assist/backend/app/config.py:67-70 | each CORS list is the parsed variable when it is set, non-empty and valid JSON, and its default otherwise; `credentials` is true iff `CORS_CREDENTIALS` is unset or lower-cases to `"true"` |
| `Config.ApiFromEnv` | AI_Assist/backend/app/config.py:73-76 | succeeds iff port, workers and timeout all parse, and then holds the three integers and `API_HOST` (default `0.0.0.0`); otherwise the error of the first of port, workers, timeout that does not parse |
| `Config.AppFromEnv` | AI_Assist/backend/app/config.py:79-82 | `debug` is true iff `DEBUG` is set and lower-cases to `"true"`; name, version and data dir are their variables when set, even to `""`, and their defaults otherwise |
| `Config.LogFromEnv` | AI_Assist/backend/app/config.py:85-86 | level and format are their variables when set, even to `""`, and `info` and `json` otherwise |
| `Config.GetSettings` | AI_Assist/backend/app/config.py:53-111 | succeeds iff port, workers and timeout all parse, and then holds the parsed integers, `API_HOST`, and the CORS, application and log settings of the environment; otherwise the error names the first of port, workers, timeout (in that order) that does not parse |
| `Config.DefaultsWhenUnset` | AI_Assist/backend/app/config.py:67-86 | with none of its variables set, the settings are the defaults: CORS lists `["*"]`, the five methods and three headers, credentials true, port 8000, host `0.0.0.0`, 4 workers, timeout 300, debug false, name `AI_Assist`, version `1.0.0`, data dir `./backend/app/files`, log level `info`, log format `json` |
| `Config.StringSettingsFollowEnv` | AI_Assist/backend/app/config.py:74-86 | in the settings `get_settings` returns, each of `API_HOST`, `APP_NAME`, `APP_VERSION`, `DATA_DIR`, `LOG_LEVEL` and `LOG_FORMAT` is its variable whenever set, including `""`, and its default otherwise |
| `Config.EmptyPortFails` | AI_Assist/backend/app/config.py:73 | `API_PORT=""` is not the default: `int("")` raises and `get_settings` fails |

## Left out

- File access and JSON decoding (`os.path.exists`, `open`, `json.load`, `json.loads`) are parameters, not parsers. Joining `DATA_DIR` with the file name is part of those parameters.
- Logging (discovery.py lines 24 and 26, and the logging set-up in main.py) has no effect on any result.
- FastAPI and uvicorn wiring is left out: the app object, routers, CORS middleware, the `/` redirect, swagger loading and `run.py`. `app.api.health` is not part of this model. Serialising responses to bytes is also left out.
- JSON floating-point numbers are left out: `Json` numbers are integers. JSON objects are maps, so the key order of response bodies and duplicate keys in a source file are not modelled.
- `Config.ParseInt` models `int()` for ASCII input only: whitespace strip, one optional sign, then decimal digits. It leaves out underscores between digits, non-ASCII digits and non-ASCII whitespace. It also accepts strings of more than 4300 digits, which `int()` rejects from Python 3.11 on.
- `Config.Lower` lower-cases ASCII letters only. No non-ASCII character lowers to `t`, `r`, `u` or `e`, so the `== "true"` tests are exact.
- Pydantic validation of the settings record is left out. The CORS lists are kept as the parsed JSON, whatever its type.
- Concurrency and multiple workers are left out. The store is written only during import.
- No settings value reaches the modelled endpoints: discovery's directory ignores `DATA_DIR`, and the live CORS middleware ignores the CORS settings. Settings reach only the logging and uvicorn set-up, which are left out.

/**
 * The two introspection endpoints of `app/main.py`: `/health`, which
 * answers with a constant body, and `/info`, which summarises the discovery
 * store and degrades to a minimal body when the documents have an
 * unexpected shape.
 */
module AppMain {
  import opened Wrappers
  import opened JsonValue
  import opened PyRuntime
  import opened Discovery

  /** `health_check`: the same body whatever the store holds. */
  function HealthCheck(): (r: Json)
    ensures r.JObject? && r.fields.Keys == {"status", "message"}
    ensures r.fields["status"] == JString("healthy")
    ensures r.fields["message"] == JString("AI Assist Backend is running")
  {
    JObject(map["status" := JString("healthy"), "message" := JString("AI Assist Backend is running")])
  }

  /** The `home` section: `len` and truthiness of `home["application"]`. */
  datatype HomeInfo = HomeInfo(applicationCount: nat, routesAvailable: bool)

  /**
   * One application section: its name and version (null when absent), the
   * number of pages and the length of its second list (`blueprints` for
   * appfoundry, `providers` for modelgarden).
   */
  datatype AppInfo = AppInfo(name: Json, version: Json, pagesCount: nat, listCount: nat)

  /** What `api_info` reports: the full summary, or the error text of the degraded body. */
  datatype Info =
    | Full(dataSources: seq<string>, home: Option<HomeInfo>, appfoundry: Option<AppInfo>, modelgarden: Option<AppInfo>)
    | Degraded(error: string)

  const ErrorPrefix: string := "Could not load data info: "

  /** Lines 132-136: `.get` on the home document, then `len` and `bool` of the result. */
  function HomeSection(home: Json): (r: Result<HomeInfo, PyError>)
    ensures r.Success? <==> HomeReadable(home)
    ensures r.Success? ==> r.value == ExpectedHome(home)
    ensures !home.JObject? ==> r == Failure(AttributeError(TypeName(home), "get"))
    ensures home.JObject? && r.Failure? ==>
              r.error == TypeError(TypeName(Field(home, "application", JObject(map[]))))
  {
    var application :- Get(home, "application", JObject(map[]));
    var count :- Len(application);
    // `home` is known to be a dict here, so the second `.get` cannot raise
    var routes := Field(home, "application", JNull);
    Success(HomeInfo(count, Truthy(routes)))
  }

  /**
   * Lines 140-146 and 150-156: the nested `appKey` object of the document,
   * then its name, version and the lengths of `pages` and `listKey`, each
   * step evaluated in the source's order and able to raise.
   */
  function AppSection(doc: Json, appKey: string, listKey: string): (r: Result<AppInfo, PyError>)
    ensures r.Success? <==> AppReadable(doc, appKey, listKey)
    ensures r.Success? ==> r.value == ExpectedApp(doc, appKey, listKey)
    ensures r.Failure? ==> r.error == AppError(doc, appKey, listKey)
  {
    var app :- Get(doc, appKey, JObject(map[]));
    var name :- Get(app, "name", JNull);
    // `app` is known to be a dict from here on, so its later `.get` calls cannot raise
    var version := Field(app, "version", JNull);
    var pages := Field(app, "pages", JArray([]));
    var pagesCount :- Len(pages);
    var list := Field(app, listKey, JArray([]));
    var listCount :- Len(list);
    Success(AppInfo(name, version, pagesCount, listCount))
  }

  /** The first exception an unreadable application document raises, in the source's evaluation order. */
  function AppError(doc: Json, appKey: string, listKey: string): PyError {
    if !doc.JObject? then AttributeError(TypeName(doc), "get")
    else
      var app := Field(doc, appKey, JObject(map[]));
      if !app.JObject? then AttributeError(TypeName(app), "get")
      else
        var pages := Field(app, "pages", JArray([]));
        if !Sized(pages) then TypeError(TypeName(pages))
        else TypeError(TypeName(Field(app, listKey, JArray([]))))
  }

  /** A section that is computed only when its document is loaded. */
  function Section<T>(d: Dict, key: string, section: Json -> Result<T, PyError>): Result<Option<T>, PyError> {
    if key in d.entries then
      var s :- section(d.entries[key]);
      Success(Some(s))
    else Success(None)
  }

  /** The body of the `try` block, lines 117-158; a Failure is the exception it raises. */
  function Summarise(d: Dict): (r: Result<Info, PyError>)
    ensures r.Success? <==> Readable(d.entries)
    ensures r.Success? ==> r.value.Full?
    ensures r.Success? ==> (r.value.home.Some? <==> "home" in d.entries)
    ensures r.Success? ==> (r.value.appfoundry.Some? <==> "appfoundry" in d.entries)
    ensures r.Success? ==> (r.value.modelgarden.Some? <==> "modelgarden" in d.entries)
    ensures "home" in d.entries && !HomeReadable(d.entries["home"]) ==>
              r == Failure(HomeSection(d.entries["home"]).error)
    ensures && ("home" !in d.entries || HomeReadable(d.entries["home"]))
            && "appfoundry" in d.entries && !AppReadable(d.entries["appfoundry"], "appfoundry", "blueprints") ==>
              r == Failure(AppError(d.entries["appfoundry"], "appfoundry", "blueprints"))
    ensures && ("home" !in d.entries || HomeReadable(d.entries["home"]))
            && ("appfoundry" !in d.entries || AppReadable(d.entries["appfoundry"], "appfoundry", "blueprints"))
            && "modelgarden" in d.entries && !AppReadable(d.entries["modelgarden"], "modelgarden", "providers") ==>
              r == Failure(AppError(d.entries["modelgarden"], "modelgarden", "providers"))
  {
    var dataSources := if d.entries == map[] then [] else d.keys;
    var home :- Section(d, "home", HomeSection);
    var appfoundry :- Section(d, "appfoundry", doc => AppSection(doc, "appfoundry", "blueprints"));
    var modelgarden :- Section(d, "modelgarden", doc => AppSection(doc, "modelgarden", "providers"));
    Success(Full(dataSources, home, appfoundry, modelgarden))
  }

  /** The value of `key` in an object, or `default` when it is absent (`dict.get` on a dict). */
  function Field(obj: Json, key: string, default: Json): Json
    requires obj.JObject?
  {
    if key in obj.fields then obj.fields[key] else default
  }

  /** A home document that the summary can read without a type error. */
  predicate HomeReadable(home: Json) {
    home.JObject? && Sized(Field(home, "application", JObject(map[])))
  }

  /** An application document that the summary can read without a type error. */
  predicate AppReadable(doc: Json, appKey: string, listKey: string) {
    && doc.JObject?
    && var app := Field(doc, appKey, JObject(map[]));
    && app.JObject?
    && Sized(Field(app, "pages", JArray([])))
    && Sized(Field(app, listKey, JArray([])))
  }

  /** Every loaded document the summary inspects has the shape it expects. */
  predicate Readable(docs: map<string, Json>) {
    && ("home" in docs ==> HomeReadable(docs["home"]))
    && ("appfoundry" in docs ==> AppReadable(docs["appfoundry"], "appfoundry", "blueprints"))
    && ("modelgarden" in docs ==> AppReadable(docs["modelgarden"], "modelgarden", "providers"))
  }

  /** The expected home section of a readable home document. */
  function ExpectedHome(home: Json): HomeInfo
    requires HomeReadable(home)
  {
    HomeInfo(PyLen(Field(home, "application", JObject(map[]))).value,
             Truthy(Field(home, "application", JNull)))
  }

  /** The expected application section of a readable application document. */
  function ExpectedApp(doc: Json, appKey: string, listKey: string): AppInfo
    requires AppReadable(doc, appKey, listKey)
  {
    var app := Field(doc, appKey, JObject(map[]));
    AppInfo(Field(app, "name", JNull), Field(app, "version", JNull),
            PyLen(Field(app, "pages", JArray([]))).value,
            PyLen(Field(app, listKey, JArray([]))).value)
  }

  /**
   * `api_info`: the summary when every loaded document is readable, and the
   * degraded result carrying the exception's message otherwise. It never fails.
   */
  function ApiInfo(d: Dict): (r: Info)
    ensures r.Full? <==> Readable(d.entries)
    ensures r.Degraded? ==> |r.error| >= |ErrorPrefix| && r.error[..|ErrorPrefix|] == ErrorPrefix
    ensures r.Degraded? ==> r.error == ErrorPrefix + Summarise(d).error.Message()
  {
    match Summarise(d)
    case Success(info) => info
    case Failure(e) => Degraded(ErrorPrefix + e.Message())
  }

  /**
   * On the normal path: `data_sources` is the store's key order; the home
   * section is there iff home is loaded, with its `len` and truthiness; each
   * application entry is there iff its document is loaded, with its name,
   * version and list lengths.
   */
  lemma FullSummary(d: Dict)
    requires d.Valid()
    requires Readable(d.entries)
    ensures ApiInfo(d).Full?
    ensures ApiInfo(d).dataSources == d.keys
    ensures ApiInfo(d).home.Some? <==> "home" in d.entries
    ensures "home" in d.entries ==> ApiInfo(d).home.value == ExpectedHome(d.entries["home"])
    ensures ApiInfo(d).appfoundry.Some? <==> "appfoundry" in d.entries
    ensures "appfoundry" in d.entries ==>
              ApiInfo(d).appfoundry.value == ExpectedApp(d.entries["appfoundry"], "appfoundry", "blueprints")
    ensures ApiInfo(d).modelgarden.Some? <==> "modelgarden" in d.entries
    ensures "modelgarden" in d.entries ==>
              ApiInfo(d).modelgarden.value == ExpectedApp(d.entries["modelgarden"], "modelgarden", "providers")
  {
    if d.keys != [] {
      assert d.keys[0] in d.entries;
    }
  }

  /** The `api` section both bodies carry. */
  function ApiSection(): Json {
    JObject(map[
      "title" := JString("AI Assist Backend API"),
      "version" := JString("1.0.0"),
      "description" := JString("Dynamic API serving AI application data")])
  }

  /** One entry of `applications`: name, version, `pages_count` and the second count under `listCountKey`. */
  function AppBody(a: AppInfo, listCountKey: string): (r: Json)
    requires listCountKey !in {"name", "version", "pages_count"}
    ensures r.JObject? && r.fields.Keys == {"name", "version", "pages_count", listCountKey}
    ensures r.fields["name"] == a.name && r.fields["version"] == a.version
    ensures r.fields["pages_count"] == JNumber(a.pagesCount)
    ensures r.fields[listCountKey] == JNumber(a.listCount)
  {
    JObject(map["name" := a.name, "version" := a.version,
                "pages_count" := JNumber(a.pagesCount), listCountKey := JNumber(a.listCount)])
  }

  /** The `home` entry: `application_count` and `routes_available`. */
  function HomeBody(h: HomeInfo): (r: Json)
    ensures r.JObject? && r.fields.Keys == {"application_count", "routes_available"}
    ensures r.fields["application_count"] == JNumber(h.applicationCount)
    ensures r.fields["routes_available"] == JBool(h.routesAvailable)
  {
    JObject(map["application_count" := JNumber(h.applicationCount),
                "routes_available" := JBool(h.routesAvailable)])
  }

  /** The `applications` entry: one object per application document that was loaded. */
  function Applications(appfoundry: Option<AppInfo>, modelgarden: Option<AppInfo>): (r: Json)
    ensures r.JObject?
    ensures r.fields.Keys ==
              (if appfoundry.Some? then {"appfoundry"} else {}) + (if modelgarden.Some? then {"modelgarden"} else {})
    ensures appfoundry.Some? ==> r.fields["appfoundry"] == AppBody(appfoundry.value, "blueprints_count")
    ensures modelgarden.Some? ==> r.fields["modelgarden"] == AppBody(modelgarden.value, "providers_count")
  {
    var withFoundry: map<string, Json> :=
      if appfoundry.Some? then map["appfoundry" := AppBody(appfoundry.value, "blueprints_count")] else map[];
    JObject(
      if modelgarden.Some? then withFoundry["modelgarden" := AppBody(modelgarden.value, "providers_count")]
      else withFoundry)
  }

  /** The JSON body `/info` returns for a summary. */
  function Body(info: Info): (r: Json)
    ensures r.JObject? && {"api", "status", "data_sources"} <= r.fields.Keys
    ensures r.fields["api"] == ApiSection()
    ensures r.fields["status"] == JString("operational")
    ensures info.Full? ==> r.fields["data_sources"] == StringArray(info.dataSources)
    ensures info.Full? ==>
              r.fields.Keys == {"api", "data_sources", "status", "applications"} + (if info.home.Some? then {"home"} else {})
    ensures info.Full? && info.home.Some? ==> r.fields["home"] == HomeBody(info.home.value)
    ensures info.Full? ==> r.fields["applications"].JObject?
    ensures info.Full? ==>
              r.fields["applications"].fields.Keys == (if info.appfoundry.Some? then {"appfoundry"} else {}) + (if info.modelgarden.Some? then {"modelgarden"} else {})
    ensures info.Full? && info.appfoundry.Some? ==>
              r.fields["applications"].fields["appfoundry"] == AppBody(info.appfoundry.value, "blueprints_count")
    ensures info.Full? && info.modelgarden.Some? ==>
              r.fields["applications"].fields["modelgarden"] == AppBody(info.modelgarden.value, "providers_count")
    ensures info.Degraded? ==> r.fields.Keys == {"api", "status", "data_sources", "error"}
    ensures info.Degraded? ==> r.fields["data_sources"] == JArray([])
    ensures info.Degraded? ==> r.fields["error"] == JString(info.error)
  {
    match info
    case Full(sources, home, appfoundry, modelgarden) =>
      var base := map[
        "api" := ApiSection(),
        "data_sources" := StringArray(sources),
        "status" := JString("operational"),
        "applications" := Applications(appfoundry, modelgarden)];
      JObject(
        if home.Some? then
          base["home" := HomeBody(home.value)]
        else base)
    case Degraded(error) =>
      JObject(map[
        "api" := ApiSection(),
        "status" := JString("operational"),
        "data_sources" := JArray([]),
        "error" := JString(error)])
  }

  /** A top-level document that is not an object makes the summary degrade. */
  lemma NonObjectDegrades(d: Dict, key: string)
    requires key in DiscoveryKeys && key in d.entries
    requires !d.entries[key].JObject?
    ensures ApiInfo(d).Degraded?
  {
  }

  /** A loaded appfoundry document and its summary entry. */
  lemma FoundryExample()
    ensures
      var foundry := JObject(map["name" := JString("Foundry"), "version" := JString("2.0"),
                                 "pages" := JArray([JNumber(1), JNumber(2), JNumber(3)]),
                                 "blueprints" := JArray([JNumber(1)])]);
      var d := Dict(["appfoundry"], map["appfoundry" := JObject(map["appfoundry" := foundry])]);
      ApiInfo(d) == Full(["appfoundry"], None, Some(AppInfo(JString("Foundry"), JString("2.0"), 3, 1)), None)
  {
  }

  /** The same document as it appears in the `/info` body: `applications.appfoundry` has the four expected keys. */
  lemma FoundryBodyExample()
    ensures
      var foundry := JObject(map["name" := JString("Foundry"), "version" := JString("2.0"),
                                 "pages" := JArray([JNumber(1), JNumber(2), JNumber(3)]),
                                 "blueprints" := JArray([JNumber(1)])]);
      var d := Dict(["appfoundry"], map["appfoundry" := JObject(map["appfoundry" := foundry])]);
      var body := Body(ApiInfo(d));
      body.fields["applications"] == JObject(map["appfoundry" := JObject(map[
        "name" := JString("Foundry"), "version" := JString("2.0"),
        "pages_count" := JNumber(3), "blueprints_count" := JNumber(1)])])
  {
    FoundryExample();
  }

  /** A home document whose "application" is null: `len(None)` raises and the body carries its message. */
  lemma NullApplicationExample()
    ensures
      var d := Dict(["home"], map["home" := JObject(map["application" := JNull])]);
      ApiInfo(d) == Degraded(ErrorPrefix + TypeError("NoneType").Message())
  {
  }

  /** A home document that is a list: `.get` raises AttributeError. */
  lemma ListHomeExample()
    ensures
      var d := Dict(["home"], map["home" := JArray([])]);
      ApiInfo(d) == Degraded(ErrorPrefix + AttributeError("list", "get").Message())
  {
  }

  /** A page count that is a number: `len` of an int raises. */
  lemma NumericPagesExample()
    ensures
      var d := Dict(["modelgarden"], map["modelgarden" := JObject(map["modelgarden" := JObject(map["pages" := JNumber(5)])])]);
      ApiInfo(d) == Degraded(ErrorPrefix + TypeError("int").Message())
  {
    var d := Dict(["modelgarden"], map["modelgarden" := JObject(map["modelgarden" := JObject(map["pages" := JNumber(5)])])]);
    var e := TypeError("int");
    assert AppSection(d.entries["modelgarden"], "modelgarden", "providers") == Failure(e);
    assert Summarise(d) == Failure(e);
  }
}

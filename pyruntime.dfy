/**
 * The few Python built-ins that the info endpoint applies to parsed JSON:
 * `len`, `bool` and `dict.get`, together with the exceptions they raise on
 * values of the wrong type.
 */
module PyRuntime {
  import opened Wrappers
  import opened JsonValue

  /** The exceptions `len` and `.get` can raise, with Python's own wording. */
  datatype PyError =
    | AttributeError(typeName: string, attribute: string)
    | TypeError(typeName: string)
  {
    function Message(): string {
      match this
      case AttributeError(t, a) => "'" + t + "' object has no attribute '" + a + "'"
      case TypeError(t) => "object of type '" + t + "' has no len()"
    }
  }

  /** `type(v).__name__` of the Python value `json.load` builds for `j`. */
  function TypeName(j: Json): string {
    match j
    case JNull => "NoneType"
    case JBool(_) => "bool"
    case JNumber(_) => "int"
    case JString(_) => "str"
    case JArray(_) => "list"
    case JObject(_) => "dict"
  }

  /** Values that support `len`: str, list and dict. */
  predicate Sized(j: Json) {
    j.JString? || j.JArray? || j.JObject?
  }

  /** Python `len(j)`, or None where `len` raises. */
  function PyLen(j: Json): (r: Option<nat>)
    ensures r.Some? <==> Sized(j)
    ensures j.JString? ==> r == Some(|j.s|)
    ensures j.JArray? ==> r == Some(|j.items|)
    ensures j.JObject? ==> r == Some(|j.fields|)
  {
    match j
    case JString(s) => Some(|s|)
    case JArray(items) => Some(|items|)
    case JObject(fields) => Some(|fields|)
    case _ => None
  }

  /**
   * Python `bool(j)`, which never raises: None is false, numbers are true
   * iff non-zero, and a str, list or dict is true iff its `len` is positive.
   */
  function Truthy(j: Json): (r: bool)
    ensures j.JNull? ==> !r
    ensures j.JBool? ==> r == j.b
    ensures j.JNumber? ==> (r <==> j.n != 0)
    ensures Sized(j) ==> (r <==> PyLen(j).value > 0)
  {
    match j
    case JNull => false
    case JBool(b) => b
    case JNumber(n) => n != 0
    case JString(s) => s != ""
    case JArray(items) => items != []
    case JObject(fields) => fields != map[]
  }

  /** `len(j)` as a step that may raise TypeError. */
  function Len(j: Json): (r: Result<nat, PyError>)
    ensures r.Success? <==> Sized(j)
    ensures r.Success? ==> Some(r.value) == PyLen(j)
    ensures r.Failure? ==> r.error == TypeError(TypeName(j))
  {
    match PyLen(j)
    case Some(n) => Success(n)
    case None => Failure(TypeError(TypeName(j)))
  }

  /** `j.get(key, default)`: only dicts have `.get`; a present key wins over the default, even when its value is null. */
  function Get(j: Json, key: string, default: Json): (r: Result<Json, PyError>)
    ensures r.Success? <==> j.JObject?
    ensures r.Success? && key in j.fields ==> r.value == j.fields[key]
    ensures r.Success? && key !in j.fields ==> r.value == default
    ensures r.Failure? ==> r.error == AttributeError(TypeName(j), "get")
  {
    if j.JObject? then
      Success(if key in j.fields then j.fields[key] else default)
    else
      Failure(AttributeError(TypeName(j), "get"))
  }
}

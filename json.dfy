/**
  JSON values as `json.loads` and `response.json()` produce them, and the
  Python operations the transformer and the sync loop apply to them:
  subscripting (`v[key]`, `v[0]`), truth testing, comparison with 0,
  iteration and `len`.
 */
module Json {

  /** A parsed JSON document. Objects are maps from key to value. */
  datatype Json =
    | JNull
    | JBool(b: bool)
    | JInt(i: int)
    | JString(s: string)
    | JArray(items: seq<Json>)
    | JObject(fields: map<string, Json>)

  /** Why a step failed: a subscript, iteration or `len` that Python rejects
      (KeyError, TypeError or IndexError), or an HTTP call answered with a
      non-success status (requests' HTTPError). */
  datatype Fault = LookupFailed | HttpFailed

  datatype Result<T> = Success(value: T) | Failure(fault: Fault) {
    predicate IsFailure() {
      Failure?
    }

    function PropagateFailure<U>(): Result<U>
      requires Failure?
    {
      Failure(fault)
    }

    function Extract(): T
      requires Success?
    {
      value
    }
  }

  datatype Option<T> = None | Some(value: T)

  /** A chain of subscripts, `row['owner']['profile']['role']` being
      ["owner", "profile", "role"]. */
  type Path = seq<string>

  /** `v[key]`: defined only on an object that has the key. */
  function Get(v: Json, key: string): Result<Json> {
    if v.JObject? && key in v.fields then Success(v.fields[key]) else Failure(LookupFailed)
  }

  /** `v[p0][p1]...`, subscripting left to right and failing at the first
      subscript that fails. */
  function Resolve(v: Json, path: Path): (r: Result<Json>)
    ensures r.Failure? ==> r.fault == LookupFailed
    decreases |path|
  {
    if path == [] then Success(v)
    else
      var w :- Get(v, path[0]);
      Resolve(w, path[1..])
  }

  /** `v[0]`: the first element of a non-empty list. Every other truthy
      value fails here or at the next subscript (a dict has no key 0, a
      string's first character cannot be subscripted by a key, a number
      cannot be subscripted at all), so the model fails it here. */
  function Head(v: Json): Result<Json> {
    if v.JArray? && |v.items| > 0 then Success(v.items[0]) else Failure(LookupFailed)
  }

  /** Python's `bool(v)`: None, False, 0, "", [] and {} are false. */
  predicate Truthy(v: Json) {
    match v
    case JNull => false
    case JBool(b) => b
    case JInt(i) => i != 0
    case JString(s) => s != ""
    case JArray(items) => items != []
    case JObject(fields) => fields != map[]
  }

  /** Python's `v == 0`; `False == 0` holds as well, since bool is an int. */
  predicate IsZero(v: Json) {
    v == JInt(0) || v == JBool(false)
  }

  /** The pairs `(field, v[field])` of `for field in v: ... v[field]['value']`.
      A dict iterates its keys. An empty list or string iterates nothing.
      Other values are not iterable. A non-empty string fails at `v[field]`,
      since a character is no index. A non-empty list fails too: an element
      that is not an int or a bool is no index, so only a list of ints and
      bools could get past `v[field]`, and then `v[field]` is an int or a
      bool, on which `['value']` fails. The model fails all of them
      here. */
  function Members(v: Json): Result<map<string, Json>> {
    match v
    case JObject(fields) => Success(fields)
    case JArray(items) => if items == [] then Success(map[]) else Failure(LookupFailed)
    case JString(s) => if s == "" then Success(map[]) else Failure(LookupFailed)
    case _ => Failure(LookupFailed)
  }

  /** The rows of `for row in v` after `len(v)` succeeded. A list yields its
      elements. A dict or a string yields strings (its keys, its
      characters), on which every record parser fails at its first
      subscript, so only an empty one gets through. `len` of null, a bool
      or a number fails. */
  function AsRows(v: Json): Result<seq<Json>> {
    match v
    case JArray(items) => Success(items)
    case JObject(fields) => if fields == map[] then Success([]) else Failure(LookupFailed)
    case JString(s) => if s == "" then Success([]) else Failure(LookupFailed)
    case _ => Failure(LookupFailed)
  }

  /** Subscripting along a path that runs through a missing key or a
      non-object fails, however long the rest of the path is. */
  lemma {:induction false} ResolveFailsAtPrefix(v: Json, path: Path, n: nat)
    requires n <= |path|
    requires Resolve(v, path[..n]).Failure?
    ensures Resolve(v, path).Failure?
    decreases n
  {
    assert n > 0;
    match Get(v, path[0])
    case Failure(_) =>
    case Success(w) =>
      assert path[..n][1..] == path[1..][..n - 1];
      ResolveFailsAtPrefix(w, path[1..], n - 1);
  }
}

/**
  The expression-only rules of the query builder: connection lookup, namespace
  resolution, endpoint assembly, request options and outcome classification, the
  root-discovery chain of `get()`, scope dispatch, take/orderBy field names, the
  dataset parse rule and the paginator's total.
 */
module BuilderRules {
  import opened PhpValues
  import opened Descriptors
  import opened Restmodels
  import opened HasApi

  // ---------------------------------------------------------------- configuration

  /** The connection the constructor selects: the model's, or the default when that is falsy. */
  function ConnectionName(model: ModelClass, defaultName: Value): Value {
    if Truthy(model.connection) then model.connection else defaultName
  }

  /** `config('restmodel.connections.' . $name)`: the registered entry, or null. */
  function ConnectionConfig(registry: map<string, Value>, name: Value): Value {
    if ToStr(name) in registry then registry[ToStr(name)] else Null
  }

  /** The `$config` property before any connection is selected. */
  const DefaultConfig: Value := Arr([("url", Null), ("version", Null)])

  /** A Builder's fields right after allocation. */
  const InitialState: BuilderState := BuilderState([], Null, Null, Null, DefaultConfig, Null, None)

  /** `getConfig($key)`: `array_get($this->config, $key, null)` for a plain key. */
  function ConfigItem(config: Value, key: Key): (v: Value)
    ensures config.Arr? && key in Keys(config.entries) ==> Find(config.entries, key) == Some(v)
    ensures !(config.Arr? && key in Keys(config.entries)) ==> v == Null
  {
    if config.Arr? then Find(config.entries, key).GetOr(Null) else Null
  }

  // ---------------------------------------------------------------- namespace

  /** The builder's `getNamespace()`, given the model's `getNamespace()`. */
  function ResolveNamespace(model: ModelClass, h: Helpers): Value {
    var ns := Namespace(model);
    if ns == Bool(false) then Null
    else if Truthy(ns) then ns
    else Str(h.snake(model.name))
  }

  /** The builder's namespace in terms of what the model declares. */
  lemma NamespaceResolution(model: ModelClass, h: Helpers)
    ensures !Truthy(model.useNamespace) ==> ResolveNamespace(model, h) == Null
    ensures Truthy(model.useNamespace) && model.namespace == Bool(false) ==>
              ResolveNamespace(model, h) == Null
    ensures Truthy(model.useNamespace) && Truthy(model.namespace) ==>
              ResolveNamespace(model, h) == model.namespace
    ensures Truthy(model.useNamespace) && model.namespace != Bool(false) && !Truthy(model.namespace) ==>
              ResolveNamespace(model, h) == Str(h.snake(model.name))
  {
  }

  // ---------------------------------------------------------------- endpoint

  /** `collect($values)->filter()`, each survivor converted to a string. */
  function Segments(values: seq<Value>): (r: seq<string>)
    ensures |r| <= |values|
    ensures forall k :: 0 <= k < |r| ==> r[k] != "" && r[k] != "0"
  {
    if values == [] then []
    else (if Truthy(values[0]) then [ToStr(values[0])] else []) + Segments(values[1..])
  }

  /** `implode("/", $parts)`. */
  function Join(parts: seq<string>): string {
    if parts == [] then ""
    else if |parts| == 1 then parts[0]
    else parts[0] + "/" + Join(parts[1..])
  }

  function FirstSlash(s: string): (i: nat)
    requires '/' in s
    ensures i < |s| && s[i] == '/' && '/' !in s[..i]
  {
    if s[0] == '/' then 0 else 1 + FirstSlash(s[1..])
  }

  /** `explode("/", $s)`: the inverse of Join on slash-free parts. */
  function Split(s: string): seq<string>
    decreases |s|
  {
    if '/' !in s then [s]
    else
      var i := FirstSlash(s);
      [s[..i]] + Split(s[i + 1..])
  }

  /** `getEndpoint()`: url, version, namespace, id and action, falsy ones dropped, joined by "/". */
  function Endpoint(url: Value, version: Value, ns: Value, id: Value, action: Value): string {
    Join(Segments([url, version, ns, id, action]))
  }

  lemma {:induction false} FirstSlashAfter(p: string, t: string)
    requires '/' !in p
    ensures '/' in p + "/" + t && FirstSlash(p + "/" + t) == |p|
  {
    var s := p + "/" + t;
    assert s[|p|] == '/';
    if p != [] {
      assert s[1..] == p[1..] + "/" + t;
      FirstSlashAfter(p[1..], t);
    }
  }

  /** Joining slash-free parts and splitting the result gives the parts back. */
  lemma {:induction false} JoinSplit(parts: seq<string>)
    requires parts != []
    requires forall k :: 0 <= k < |parts| ==> '/' !in parts[k]
    ensures Split(Join(parts)) == parts
  {
    if |parts| > 1 {
      var p := parts[0];
      var t := Join(parts[1..]);
      FirstSlashAfter(p, t);
      var s := p + "/" + t;
      assert s[..|p|] == p;
      assert s[|p| + 1..] == t;
      JoinSplit(parts[1..]);
    }
  }

  /** No value's string form contains "/". */
  predicate SlashFree(values: seq<Value>) {
    forall k :: 0 <= k < |values| ==> '/' !in ToStr(values[k])
  }

  /**
    The endpoint is the url, then a single "/" before each further truthy segment, in
    the order version, namespace, id, action. When no segment contains "/", splitting
    what follows the url recovers exactly those segments, none of them empty.
   */
  lemma EndpointShape(url: Value, version: Value, ns: Value, id: Value, action: Value)
    requires Truthy(url)
    ensures var rest := Segments([version, ns, id, action]);
      && (rest == [] ==> Endpoint(url, version, ns, id, action) == ToStr(url))
      && (rest != [] ==> Endpoint(url, version, ns, id, action) == ToStr(url) + "/" + Join(rest))
      && (rest != [] && SlashFree([version, ns, id, action]) ==> Split(Join(rest)) == rest)
  {
    var all := [url, version, ns, id, action];
    var rest := Segments([version, ns, id, action]);
    assert all[1..] == [version, ns, id, action];
    assert Segments(all) == [ToStr(url)] + rest;
    if rest != [] && SlashFree([version, ns, id, action]) {
      SegmentsAvoid([version, ns, id, action], '/');
      JoinSplit(rest);
    }
  }

  /**
    With any url, a falsy one included, splitting an endpoint of slash-free values at "/"
    gives exactly the segments `filter()` kept, in order.
   */
  lemma EndpointSplit(url: Value, version: Value, ns: Value, id: Value, action: Value)
    requires SlashFree([url, version, ns, id, action])
    requires Segments([url, version, ns, id, action]) != []
    ensures Split(Endpoint(url, version, ns, id, action)) == Segments([url, version, ns, id, action])
  {
    var all := [url, version, ns, id, action];
    SegmentsAvoid(all, '/');
    JoinSplit(Segments(all));
  }

  /** A character that occurs in no input's string form occurs in no segment. */
  lemma {:induction false} SegmentsAvoid(values: seq<Value>, c: char)
    requires forall k :: 0 <= k < |values| ==> c !in ToStr(values[k])
    ensures forall k :: 0 <= k < |Segments(values)| ==> c !in Segments(values)[k]
  {
    if values != [] {
      var tail := values[1..];
      assert forall k :: 0 <= k < |tail| ==> tail[k] == values[k + 1];
      SegmentsAvoid(tail, c);
      var head := if Truthy(values[0]) then [ToStr(values[0])] else [];
      assert Segments(values) == head + Segments(tail);
    }
  }

  lemma SegmentsCons(v: Value, rest: seq<Value>)
    ensures Segments([v] + rest) == (if Truthy(v) then [ToStr(v)] else []) + Segments(rest)
  {
    assert ([v] + rest)[1..] == rest;
  }

  lemma ExampleTailSegments()
    ensures Segments([Str("users"), Int(5), Null]) == ["users", "5"]
  {
    assert ToStr(Int(5)) == "5" by {
      assert Digits(5) == "5";
    }
    SegmentsCons(Null, []);
    SegmentsCons(Int(5), [Null]);
    SegmentsCons(Str("users"), [Int(5), Null]);
  }

  lemma ExampleSegments()
    ensures Segments([Str("api"), Null, Str("users"), Int(5), Null]) == ["api", "users", "5"]
  {
    ExampleTailSegments();
    SegmentsCons(Null, [Str("users"), Int(5), Null]);
    SegmentsCons(Str("api"), [Null, Str("users"), Int(5), Null]);
  }

  /** A url, no version, a namespace, an id and no action. */
  lemma EndpointExample()
    ensures Endpoint(Str("api"), Null, Str("users"), Int(5), Null) == "api/users/5"
  {
    ExampleSegments();
    assert Join(["api", "users", "5"]) == "api/users/5";
  }

  // ---------------------------------------------------------------- request

  datatype Request = Request(verb: string, endpoint: string, options: Pairs)

  /** What the transport did: threw a RequestException (with its response, if any) or answered. */
  datatype Outcome = Threw(failure: Option<Response>) | Returned(response: Response)

  /** `$this->getConfig('options') ?: []`; a non-array is taken as empty. */
  function BaseOptions(options: Value): Pairs {
    if options.Arr? then options.entries else []
  }

  /** The options array: config options, with `query` and `json` taken from the builder. */
  function RequestOptions(options: Value, query: Pairs, payload: Value): Pairs {
    Put(Put(BaseOptions(options), "query", Arr(query)), "json", payload)
  }

  lemma RequestOptionsOverride(options: Value, query: Pairs, payload: Value)
    ensures Find(RequestOptions(options, query, payload), "query") == Some(Arr(query))
    ensures Find(RequestOptions(options, query, payload), "json") == Some(payload)
    ensures forall k :: k != "query" && k != "json" ==>
              Find(RequestOptions(options, query, payload), k) == Find(BaseOptions(options), k)
    ensures Distinct(BaseOptions(options)) ==> Distinct(RequestOptions(options, query, payload))
  {
    var base := BaseOptions(options);
    var withQuery := Put(base, "query", Arr(query));
    PutFind(base, "query", Arr(query));
    PutFindOther(withQuery, "json", "query", payload);
    PutFind(withQuery, "json", payload);
    forall k | k != "query" && k != "json"
      ensures Find(RequestOptions(options, query, payload), k) == Find(base, k)
    {
      PutFindOther(withQuery, "json", k, payload);
      PutFindOther(base, "query", k, Arr(query));
    }
    if Distinct(base) {
      PutDistinct(base, "query", Arr(query));
      PutDistinct(withQuery, "json", payload);
    }
  }

  /** The request `doRequest($verb)` sends from builder state `s`. */
  function RequestFor(model: ModelClass, h: Helpers, s: BuilderState, verb: string): Request {
    Request(
      verb,
      Endpoint(ConfigItem(s.config, "url"), ConfigItem(s.config, "version"), ResolveNamespace(model, h), s.id, s.action),
      RequestOptions(ConfigItem(s.config, "options"), s.query, s.payload))
  }

  /** The response `doRequest` keeps in `$this->response`. */
  function StoredResponse(o: Outcome): Option<Response> {
    match o
    case Threw(failure) => failure
    case Returned(response) => Some(response)
  }

  /** What `doRequest` returns: null on an exception or a status of 300 and up, else the decoded body. */
  function RequestResult(o: Outcome, decode: string -> Value): (r: Value)
    ensures r != Null ==> o.Returned? && o.response.status < 300
    ensures o.Returned? && o.response.status < 300 ==> r == decode(o.response.body)
    ensures o.Threw? || (o.Returned? && o.response.status >= 300) ==> r == Null
  {
    match o
    case Threw(_) => Null
    case Returned(response) => if response.status >= 300 then Null else decode(response.body)
  }

  // ---------------------------------------------------------------- root discovery

  /** `array_has($result, $key)` for a plain key. */
  predicate Has(result: Pairs, key: Key) {
    key in Keys(result)
  }

  /** `isset($result[$key])`: present and not null. */
  predicate IsSet(result: Pairs, key: Key) {
    Find(result, key).Some? && Find(result, key).value != Null
  }

  predicate RootMatch(result: Pairs, root: Value) {
    Truthy(root) && Has(result, KeyOf(root))
  }

  predicate SingularMatch(result: Pairs, root: Value, h: Helpers) {
    Truthy(root) && Has(result, h.singular(ToStr(root)))
  }

  predicate NamespaceMatch(result: Pairs, ns: Value, h: Helpers) {
    Truthy(ns) && IsSet(result, h.snake(ToStr(ns)))
  }

  /** The value `get()` goes on with after trying, in order, root, singular root, namespace, sole entry. */
  function Unwrap(result: Pairs, root: Value, ns: Value, h: Helpers): (r: Value)
    ensures RootMatch(result, root) ==> Find(result, KeyOf(root)) == Some(r)
    ensures !RootMatch(result, root) && SingularMatch(result, root, h) ==>
              Find(result, h.singular(ToStr(root))) == Some(r)
    ensures !RootMatch(result, root) && !SingularMatch(result, root, h) && NamespaceMatch(result, ns, h) ==>
              Find(result, h.snake(ToStr(ns))) == Some(r) && r != Null
    ensures !RootMatch(result, root) && !SingularMatch(result, root, h) && !NamespaceMatch(result, ns, h) ==>
              r == if |result| == 1 then result[0].1 else Arr(result)
  {
    if RootMatch(result, root) then Find(result, KeyOf(root)).value
    else if SingularMatch(result, root, h) then Find(result, h.singular(ToStr(root))).value
    else if NamespaceMatch(result, ns, h) then Find(result, h.snake(ToStr(ns))).value
    else if |result| == 1 then result[0].1
    else Arr(result)
  }

  /** The values `foreach` visits, or none when the unwrapped value is falsy or not an array. */
  function Records(v: Value): (r: seq<Value>)
    ensures !(Truthy(v) && v.Arr?) ==> r == []
    ensures Truthy(v) && v.Arr? ==> r == Values(v.entries) && r != []
  {
    if Truthy(v) && v.Arr? then Values(v.entries) else []
  }

  /** The values `get()` turns into model instances, one each, in this order. */
  function Discover(body: Value, root: Value, ns: Value, h: Helpers): (r: seq<Value>)
    ensures !body.Arr? ==> r == []
    ensures body.Arr? ==> r == Records(Unwrap(body.entries, root, ns, h))
  {
    if body.Arr? then Records(Unwrap(body.entries, root, ns, h)) else []
  }

  /** A body that holds the declared root key, wherever it sits, yields the records under that key. */
  lemma RootEnvelope(result: Pairs, root: Value, ns: Value, h: Helpers)
    requires RootMatch(result, root)
    ensures Discover(Arr(result), root, ns, h) == Records(Find(result, KeyOf(root)).value)
  {
  }

  /** An example: with root "users", `{"meta": null, "users": [...]}` yields the list under "users". */
  lemma RootExample(items: seq<Value>, ns: Value, h: Helpers)
    ensures Discover(Arr([("meta", Null), ("users", Arr(List(items)))]), Str("users"), ns, h) == items
  {
    var result := [("meta", Null), ("users", Arr(List(items)))];
    assert Keys(result) == ["meta", "users"];
    RootEnvelope(result, Str("users"), ns, h);
    assert Find(result, "users") == Some(Arr(List(items)));
    assert Values(List(items)) == items;
  }

  /** Without the root key, a body holding the singular root key yields the records under it. */
  lemma SingularEnvelope(result: Pairs, root: Value, ns: Value, h: Helpers)
    requires !RootMatch(result, root) && SingularMatch(result, root, h)
    ensures Discover(Arr(result), root, ns, h) == Records(Find(result, h.singular(ToStr(root))).value)
  {
  }

  /**
    Without a root or singular root key, a body holding the snake_case namespace key
    with a non-null value yields the records under it.
   */
  lemma NamespaceEnvelope(result: Pairs, root: Value, ns: Value, h: Helpers)
    requires !RootMatch(result, root) && !SingularMatch(result, root, h) && NamespaceMatch(result, ns, h)
    ensures Find(result, h.snake(ToStr(ns))).value != Null
    ensures Discover(Arr(result), root, ns, h) == Records(Find(result, h.snake(ToStr(ns))).value)
  {
  }

  /** An example: with root "users", an envelope `{"user": [...]}` yields the list it holds. */
  lemma SingularExample(items: seq<Value>, ns: Value, h: Helpers)
    requires h.singular("users") == "user"
    ensures Discover(Arr([("user", Arr(List(items)))]), Str("users"), ns, h) == items
  {
    var result := [("user", Arr(List(items)))];
    assert Keys(result) == ["user"];
    SingularEnvelope(result, Str("users"), ns, h);
    assert Values(List(items)) == items;
  }

  /** The root key wins over a namespace key present beside it. */
  lemma RootBeatsNamespace(result: Pairs, root: Value, ns: Value, h: Helpers)
    requires RootMatch(result, root) && NamespaceMatch(result, ns, h)
    ensures Discover(Arr(result), root, ns, h) == Records(Find(result, KeyOf(root)).value)
  {
  }

  /** An envelope with one unknown key yields the records inside it. */
  lemma SoleEnvelope(key: Key, inner: Value, root: Value, ns: Value, h: Helpers)
    requires !Truthy(root) || (key != KeyOf(root) && key != h.singular(ToStr(root)))
    requires !Truthy(ns) || key != h.snake(ToStr(ns)) || inner == Null
    ensures Discover(Arr([(key, inner)]), root, ns, h) == Records(inner)
  {
    var result := [(key, inner)];
    assert Keys(result) == [key];
  }

  /** A bare list of two or more entries that no rule matches passes through, in order. */
  lemma ListPassesThrough(items: seq<Value>, root: Value, ns: Value, h: Helpers)
    requires |items| >= 2
    requires !RootMatch(List(items), root) && !SingularMatch(List(items), root, h)
    requires !NamespaceMatch(List(items), ns, h)
    ensures Discover(Arr(List(items)), root, ns, h) == items
  {
  }

  /**
    A one-entry list has exactly one entry, so the sole-entry rule replaces it by that
    entry: the builder then iterates the fields of the single record, not the list.
   */
  lemma OneElementListUnwraps(record: Pairs, root: Value, ns: Value, h: Helpers)
    requires record != []
    requires !RootMatch(List([Arr(record)]), root) && !SingularMatch(List([Arr(record)]), root, h)
    requires !NamespaceMatch(List([Arr(record)]), ns, h)
    ensures Discover(Arr(List([Arr(record)])), root, ns, h) == Values(record)
  {
    assert List([Arr(record)])[0].1 == Arr(record);
  }

  // ---------------------------------------------------------------- scopes

  /** `ucfirst($s)`: an ASCII lower-case first letter becomes upper case. */
  function UcFirst(s: string): (r: string)
    ensures |r| == |s| && (s != [] ==> r[1..] == s[1..])
    ensures s != [] && 'a' <= s[0] <= 'z' ==> r[0] as int == s[0] as int - 32
    ensures s != [] && !('a' <= s[0] <= 'z') ==> r == s
  {
    if s != [] && 'a' <= s[0] <= 'z' then [(s[0] as int - 32) as char] + s[1..] else s
  }

  /** The model method a scope name dispatches to. */
  function ScopeMethod(name: string): string {
    "scope" + UcFirst(name)
  }

  /** `callScope($name, $args)`: run the handler if the model has it, else change nothing. */
  function ScopeStep(model: ModelClass, s: BuilderState, name: string, args: seq<Value>): BuilderState {
    if ScopeMethod(name) in model.scopeMethods then model.scopeMethods[ScopeMethod(name)](s, args) else s
  }

  /** `initScopes()`: `callScope` for each declared scope name, in declaration order, without arguments. */
  function RunScopes(model: ModelClass, s: BuilderState, names: seq<string>): BuilderState
    decreases |names|
  {
    if names == [] then s
    else ScopeStep(model, RunScopes(model, s, names[..|names| - 1]), names[|names| - 1], [])
  }

  /** One more scope name runs one more step. */
  lemma RunScopesSnoc(model: ModelClass, s: BuilderState, names: seq<string>, name: string)
    ensures RunScopes(model, s, names + [name]) == ScopeStep(model, RunScopes(model, s, names), name, [])
  {
    var zs := names + [name];
    assert zs[..|zs| - 1] == names;
  }

  /** Running two lists of scopes one after the other is running their concatenation. */
  lemma {:induction false} RunScopesAppend(model: ModelClass, s: BuilderState, xs: seq<string>, ys: seq<string>)
    ensures RunScopes(model, s, xs + ys) == RunScopes(model, RunScopes(model, s, xs), ys)
    decreases |ys|
  {
    if ys == [] {
      assert xs + ys == xs;
    } else {
      var init := ys[..|ys| - 1];
      var last := ys[|ys| - 1];
      assert ys == init + [last];
      assert xs + ys == (xs + init) + [last];
      RunScopesAppend(model, s, xs, init);
      RunScopesSnoc(model, s, xs + init, last);
      RunScopesSnoc(model, RunScopes(model, s, xs), init, last);
    }
  }

  /** The scope names that have a handler, in declaration order. */
  function Handled(model: ModelClass, names: seq<string>): (r: seq<string>)
    ensures forall n :: n in r ==> n in names && ScopeMethod(n) in model.scopeMethods
    decreases |names|
  {
    if names == [] then []
    else
      var last := names[|names| - 1];
      Handled(model, names[..|names| - 1]) + if ScopeMethod(last) in model.scopeMethods then [last] else []
  }

  /** Names without a handler have no effect: only the handled ones count, in order. */
  lemma {:induction false} RunScopesHandledOnly(model: ModelClass, s: BuilderState, names: seq<string>)
    ensures RunScopes(model, s, names) == RunScopes(model, s, Handled(model, names))
    decreases |names|
  {
    if names != [] {
      var init := names[..|names| - 1];
      var last := names[|names| - 1];
      RunScopesHandledOnly(model, s, init);
      if ScopeMethod(last) in model.scopeMethods {
        RunScopesAppend(model, s, Handled(model, init), [last]);
        assert [last][..0] == [];
      } else {
        assert Handled(model, names) == Handled(model, init);
      }
    }
  }

  // ---------------------------------------------------------------- take / orderBy

  /** The query key `take`/`orderBy` write: the model getter's value, which must be truthy. */
  function FieldFor(model: ModelClass, h: Helpers, getter: string): (r: Result<Key>)
    ensures r.Ok? ==> CallGetter(model, h, [], [], getter).Ok? &&
                      Truthy(CallGetter(model, h, [], [], getter).value) &&
                      r.value == KeyOf(CallGetter(model, h, [], [], getter).value)
    ensures r.Err? ==> (CallGetter(model, h, [], [], getter).Err? && r.error == InvalidArgumentException) ||
                       (CallGetter(model, h, [], [], getter).Ok? && r.error == RuntimeException)
    ensures CallGetter(model, h, [], [], getter).Ok? && Truthy(CallGetter(model, h, [], [], getter).value) ==>
              r == Ok(KeyOf(CallGetter(model, h, [], [], getter).value))
    ensures CallGetter(model, h, [], [], getter).Ok? && !Truthy(CallGetter(model, h, [], [], getter).value) ==>
              r == Err(RuntimeException)
  {
    match CallGetter(model, h, [], [], getter)
    case Err(e) => Err(e)
    case Ok(field) => if Truthy(field) then Ok(KeyOf(field)) else Err(RuntimeException)
  }

  /** `take` uses the `$take` property: its value as key when truthy, else a RuntimeException. */
  lemma TakeField(model: ModelClass, h: Helpers)
    requires h.camel("Take") == "take"
    ensures Truthy(model.take) ==> FieldFor(model, h, "getTake") == Ok(ToStr(model.take))
    ensures !Truthy(model.take) ==> FieldFor(model, h, "getTake") == Err(RuntimeException)
  {
    assert "getTake"[3..] == "Take";
  }

  /** On the base model `take(n)` writes the query key "take". */
  lemma TakeOnBaseModel(name: string, h: Helpers)
    requires h.camel("Take") == "take"
    ensures FieldFor(BaseModel(name), h, "getTake") == Ok("take")
  {
    TakeField(BaseModel(name), h);
  }

  /**
    `orderBy` asks for a property `orderBy`; the base model declares `sortBy` instead,
    so on a model that does not add `orderBy` the call fails from `__call`.
   */
  lemma OrderByWithoutProperty(model: ModelClass, h: Helpers)
    requires h.camel("OrderBy") == "orderBy"
    requires "orderBy" !in model.extraProperties
    ensures FieldFor(model, h, "getOrderBy") == Err(InvalidArgumentException)
  {
    assert "getOrderBy"[3..] == "OrderBy";
  }

  /** A model that declares `orderBy` sorts by that key when it is truthy. */
  lemma OrderByWithProperty(model: ModelClass, h: Helpers)
    requires h.camel("OrderBy") == "orderBy"
    requires "orderBy" in model.extraProperties
    ensures var v := model.extraProperties["orderBy"];
      FieldFor(model, h, "getOrderBy") == if Truthy(v) then Ok(ToStr(v)) else Err(RuntimeException)
  {
    assert "getOrderBy"[3..] == "OrderBy";
  }

  // ---------------------------------------------------------------- dataset, pagination

  /** `dataset($json)`: an array as is, else the decoded string when truthy, else an error. */
  function DatasetValue(json: Value, decode: string -> Value): (r: Result<Value>)
    ensures r.Ok? <==> json.Arr? || Truthy(decode(ToStr(json)))
    ensures r.Ok? ==> r.value == if json.Arr? then json else decode(ToStr(json))
    ensures r.Err? ==> r.error == InvalidArgumentException
  {
    if json.Arr? then Ok(json)
    else if Truthy(decode(ToStr(json))) then Ok(decode(ToStr(json)))
    else Err(InvalidArgumentException)
  }

  /** `$currentPage ?: Paginator::resolveCurrentPage()`, the resolved page given as input. */
  function CurrentPage(given: Value, resolved: Value): Value {
    if Truthy(given) then given else resolved
  }

  /** The state after the model's `setPagination` hook, if it has one. */
  function WithPagination(model: ModelClass, s: BuilderState, perPage: Value, page: Value): BuilderState {
    match model.setPagination
    case Some(hook) => hook(s, perPage, page)
    case None => s
  }

  /** The paginator's total: the `getTotal` hook's answer when truthy, else the page size. */
  function PageTotal(model: ModelClass, s: BuilderState, count: nat): (t: Value)
    ensures Truthy(t)  || t == Int(0)
    ensures model.getTotal.None? ==> t == Int(count)
    ensures model.getTotal.Some? && Truthy(model.getTotal.value(s)) ==> t == model.getTotal.value(s)
    ensures model.getTotal.Some? && !Truthy(model.getTotal.value(s)) ==> t == Int(count)
  {
    var hooked := match model.getTotal case Some(total) => total(s) case None => Null;
    if Truthy(hooked) then hooked else Int(count)
  }
}

/**
  The query builder: per-query state (query parameters, payload, action, id,
  connection config, dataset, last response), the chainable setters, scope dispatch
  and the terminal calls that send a request and turn its body into model instances.

  The HTTP transport is the function `transport`, from the request the builder sends to
  what happened; `decode` stands for `json_decode($body, true)`, null for a malformed body.
 */
module Builders {
  import opened PhpValues
  import opened Descriptors
  import opened Restmodels
  import opened HasApi
  import opened BuilderRules

  /** What `paginate` returns: the page's items, the total, the page size and the page. */
  datatype Page = Page(items: seq<Restmodel>, total: Value, perPage: Value, currentPage: Value)

  predicate AllArrays(records: seq<Value>) {
    forall i :: 0 <= i < |records| ==> records[i].Arr?
  }

  /** `m` is an instance of `model` built from the array `record`. */
  ghost predicate BuiltOne(model: ModelClass, h: Helpers, m: Restmodel, record: Value)
    reads m
  {
    && record.Arr?
    && m.cls == model && m.helpers == h
    && m.original == InitialOriginal(model, record.entries)
    && m.attributes == InitialAttributes(model, h, record.entries)
  }

  /** `ms` holds one instance of `model` per record, built from it, in order. */
  ghost predicate BuiltFrom(model: ModelClass, h: Helpers, ms: seq<Restmodel>, records: seq<Value>)
    reads ms
  {
    |ms| == |records| && forall i :: 0 <= i < |ms| ==> BuiltOne(model, h, ms[i], records[i])
  }

  /** The records a GET with the given outcome yields for `model`. */
  function Listing(model: ModelClass, h: Helpers, o: Outcome, decode: string -> Value): seq<Value> {
    Discover(RequestResult(o, decode), model.root, ResolveNamespace(model, h), h)
  }

  /** The `foreach` of `get()`: `newInstance` for each record, in order. */
  method BuildEach(model: ModelClass, h: Helpers, records: seq<Value>) returns (r: Result<seq<Restmodel>>)
    ensures r.Ok? <==> AllArrays(records)
    ensures r.Err? ==> r.error == TypeError
    ensures r.Ok? ==> BuiltFrom(model, h, r.value, records)
    ensures r.Ok? ==> forall i :: 0 <= i < |r.value| ==> fresh(r.value[i])
  {
    var built: seq<Restmodel> := [];
    var i := 0;
    while i < |records|
      invariant 0 <= i <= |records| && |built| == i
      invariant forall k :: 0 <= k < i ==> BuiltOne(model, h, built[k], records[k])
      invariant forall k :: 0 <= k < i ==> fresh(built[k])
    {
      var made := NewInstance(model, h, records[i]);
      if made.Err? {
        return Err(TypeError);
      }
      built := built + [made.value];
      i := i + 1;
    }
    return Ok(built);
  }

  /**
    A bare one-record list is unwrapped to the record itself, so `get()` visits the
    record's field values; a record with any non-array field therefore makes `get()`
    fail with a TypeError instead of yielding one instance.
   */
  lemma OneRecordListFails(record: Pairs, root: Value, ns: Value, h: Helpers, i: nat)
    requires i < |record| && !record[i].1.Arr?
    requires !RootMatch(List([Arr(record)]), root) && !SingularMatch(List([Arr(record)]), root, h)
    requires !NamespaceMatch(List([Arr(record)]), ns, h)
    ensures !AllArrays(Discover(Arr(List([Arr(record)])), root, ns, h))
  {
    OneElementListUnwraps(record, root, ns, h);
    assert Discover(Arr(List([Arr(record)])), root, ns, h)[i] == record[i].1;
  }

  class Builder {
    const model: ModelClass
    const helpers: Helpers
    var query: Pairs
    var payload: Value
    var action: Value
    var id: Value
    var config: Value
    var dataset: Value
    var response: Option<Response>

    function State(): BuilderState
      reads this
    {
      BuilderState(query, payload, action, id, config, dataset, response)
    }

    /** The fields as PHP initialises them, before the constructor body runs. */
    constructor Allocate(model: ModelClass, h: Helpers)
      ensures this.model == model && helpers == h
      ensures State() == InitialState
    {
      this.model := model;
      helpers := h;
      query := [];
      payload := Null;
      action := Null;
      id := Null;
      config := DefaultConfig;
      dataset := Null;
      response := None;
    }

    /** `new Builder($model)`: select the connection, then run the model's default scopes. */
    static method New(model: ModelClass, h: Helpers, registry: map<string, Value>, defaultName: Value)
      returns (r: Result<Builder>)
      ensures var config := ConnectionConfig(registry, ConnectionName(model, defaultName));
        && (r.Err? <==> !Truthy(config))
        && (r.Err? ==> r.error == InvalidArgumentException)
        && (r.Ok? ==> fresh(r.value) && r.value.model == model && r.value.helpers == h)
        && (r.Ok? ==> r.value.State() == RunScopes(model, InitialState.(config := config), model.scopes))
    {
      var b := new Builder.Allocate(model, h);
      var selected := b.On(registry, ConnectionName(model, defaultName));
      if selected.Err? {
        return Err(selected.error);
      }
      b.InitScopes();
      return Ok(b);
    }

    method SetState(s: BuilderState)
      modifies this
      ensures State() == s
    {
      query, payload, action, id := s.query, s.payload, s.action, s.id;
      config, dataset, response := s.config, s.dataset, s.response;
    }

    /** `on($connection)`: use the registered config, or fail when it is falsy. */
    method On(registry: map<string, Value>, name: Value) returns (r: Result<Builder>)
      modifies this`config
      ensures var c := ConnectionConfig(registry, name);
        && (Truthy(c) ==> r == Ok(this) && config == c)
        && (!Truthy(c) ==> r == Err(InvalidArgumentException) && config == old(config))
    {
      var c := ConnectionConfig(registry, name);
      if Truthy(c) {
        config := c;
        r := Ok(this);
      } else {
        r := Err(InvalidArgumentException);
      }
    }

    /** `initScopes()`. */
    method InitScopes()
      modifies this
      ensures State() == RunScopes(model, old(State()), model.scopes)
    {
      var i := 0;
      while i < |model.scopes|
        invariant 0 <= i <= |model.scopes|
        invariant State() == RunScopes(model, old(State()), model.scopes[..i])
      {
        assert model.scopes[..i + 1][..i] == model.scopes[..i];
        var _ := CallScope(model.scopes[i], []);
        i := i + 1;
      }
      assert model.scopes[..i] == model.scopes;
    }

    /** `callScope($name, $args)`: true exactly when the model has the scope handler. */
    method CallScope(name: string, args: seq<Value>) returns (handled: bool)
      modifies this
      ensures handled <==> ScopeMethod(name) in model.scopeMethods
      ensures State() == ScopeStep(model, old(State()), name, args)
    {
      var scope := ScopeMethod(name);
      if scope in model.scopeMethods {
        SetState(model.scopeMethods[scope](State(), args));
        handled := true;
      } else {
        handled := false;
      }
    }

    /** `__call($name, $args)`: a scope call that returns the builder whether or not it ran. */
    method Call(name: string, args: seq<Value>) returns (self: Builder)
      modifies this
      ensures self == this
      ensures State() == ScopeStep(model, old(State()), name, args)
    {
      var _ := CallScope(name, args);
      self := this;
    }

    /** `where($key, $value)`. */
    method Where(key: Key, value: Value) returns (self: Builder)
      modifies this`query
      ensures self == this
      ensures query == Put(old(query), key, value)
    {
      query := Put(query, key, value);
      self := this;
    }

    /** `take($take)`. */
    method Take(n: Value) returns (r: Result<Builder>)
      modifies this`query
      ensures match FieldFor(model, helpers, "getTake")
        case Ok(field) => r == Ok(this) && query == Put(old(query), field, n)
        case Err(e) => r == Err(e) && query == old(query)
    {
      var field := FieldFor(model, helpers, "getTake");
      if field.Err? {
        return Err(field.error);
      }
      var self := Where(field.value, n);
      return Ok(self);
    }

    /** `orderBy($orderBy)`. */
    method OrderBy(v: Value) returns (r: Result<Builder>)
      modifies this`query
      ensures match FieldFor(model, helpers, "getOrderBy")
        case Ok(field) => r == Ok(this) && query == Put(old(query), field, v)
        case Err(e) => r == Err(e) && query == old(query)
    {
      var field := FieldFor(model, helpers, "getOrderBy");
      if field.Err? {
        return Err(field.error);
      }
      var self := Where(field.value, v);
      return Ok(self);
    }

    /** `action($action)`. */
    method Action(a: Value) returns (self: Builder)
      modifies this`action
      ensures self == this && action == a
    {
      action := a;
      self := this;
    }

    /** `id($id)`. */
    method Id(i: Value) returns (self: Builder)
      modifies this`id
      ensures self == this && id == i
    {
      id := i;
      self := this;
    }

    /** `dataset($json)`: stores the parsed dataset; nothing reads it back. */
    method Dataset(json: Value, decode: string -> Value) returns (r: Result<Builder>)
      modifies this`dataset
      ensures match DatasetValue(json, decode)
        case Ok(v) => r == Ok(this) && dataset == v
        case Err(e) => r == Err(e) && dataset == old(dataset)
    {
      if json.Arr? {
        dataset := json;
      } else {
        var decoded := decode(ToStr(json));
        if Truthy(decoded) {
          dataset := decoded;
        } else {
          return Err(InvalidArgumentException);
        }
      }
      return Ok(this);
    }

    function GetConfig(key: Key): Value
      reads this
    {
      ConfigItem(config, key)
    }

    function GetNamespace(): Value {
      ResolveNamespace(model, helpers)
    }

    function GetEndpoint(): string
      reads this
    {
      Endpoint(GetConfig("url"), GetConfig("version"), GetNamespace(), id, action)
    }

    function GetQuery(): Pairs
      reads this
    {
      query
    }

    /** `getResponse()`: the last response, sending a GET first when there is none. */
    method GetResponse(transport: Request -> Outcome, decode: string -> Value) returns (r: Option<Response>)
      modifies this`response
      ensures old(response).Some? ==> r == old(response) && response == old(response)
      ensures old(response).None? ==>
        r == response && response == StoredResponse(transport(RequestFor(model, helpers, old(State()), "GET")))
    {
      if response.None? {
        var _ := DoRequest("GET", transport, decode);
      }
      r := response;
    }

    /** `doRequest($verb)`: send, keep the response, classify the outcome. */
    method DoRequest(verb: string, transport: Request -> Outcome, decode: string -> Value) returns (body: Value)
      modifies this`response
      ensures var o := transport(RequestFor(model, helpers, old(State()), verb));
        response == StoredResponse(o) && body == RequestResult(o, decode)
    {
      var options := RequestOptions(GetConfig("options"), GetQuery(), payload);
      var outcome := transport(Request(verb, GetEndpoint(), options));
      match outcome
      case Threw(failure) =>
        response := failure;
        body := Null;
      case Returned(res) =>
        response := Some(res);
        if res.status >= 300 {
          body := Null;
        } else {
          body := decode(res.body);
        }
    }

    /** `get()`: one new instance per discovered record, in order. */
    method Get(transport: Request -> Outcome, decode: string -> Value) returns (r: Result<seq<Restmodel>>)
      modifies this`response
      ensures var o := transport(RequestFor(model, helpers, old(State()), "GET"));
        var records := Listing(model, helpers, o, decode);
        && response == StoredResponse(o)
        && (r.Ok? <==> AllArrays(records))
        && (r.Err? ==> r.error == TypeError)
        && (r.Ok? ==> BuiltFrom(model, helpers, r.value, records))
        && (r.Ok? ==> forall i :: 0 <= i < |r.value| ==> fresh(r.value[i]))
    {
      var body := DoRequest("GET", transport, decode);
      r := BuildEach(model, helpers, Discover(body, model.root, GetNamespace(), helpers));
    }

    /** `find($id)`: set the id, get, and take the first instance or none. */
    method Find(ident: Value, transport: Request -> Outcome, decode: string -> Value)
      returns (r: Result<Option<Restmodel>>)
      modifies this`id, this`response
      ensures id == ident
      ensures var o := transport(RequestFor(model, helpers, old(State()).(id := ident), "GET"));
        var records := Listing(model, helpers, o, decode);
        && response == StoredResponse(o)
        && (r.Ok? <==> AllArrays(records))
        && (r.Err? ==> r.error == TypeError)
        && (r.Ok? ==> (r.value.None? <==> records == []))
        && (r.Ok? && r.value.Some? ==>
              fresh(r.value.value) && BuiltFrom(model, helpers, [r.value.value], records[..1]))
    {
      var self := Id(ident);
      var results := Get(transport, decode);
      if results.Err? {
        return Err(results.error);
      }
      if results.value == [] {
        return Ok(None);
      }
      return Ok(Some(results.value[0]));
    }

    /** `create($data)`: POST the data; a truthy body becomes one new instance. */
    method Create(data: Pairs, transport: Request -> Outcome, decode: string -> Value)
      returns (r: Result<Option<Restmodel>>)
      modifies this`payload, this`response
      ensures payload == Arr(data)
      ensures var o := transport(RequestFor(model, helpers, old(State()).(payload := Arr(data)), "POST"));
        var body := RequestResult(o, decode);
        && response == StoredResponse(o)
        && (!Truthy(body) ==> r == Ok(None))
        && (Truthy(body) && !body.Arr? ==> r == Err(TypeError))
        && (Truthy(body) && body.Arr? ==>
              r.Ok? && r.value.Some? && fresh(r.value.value) &&
              BuiltFrom(model, helpers, [r.value.value], [body]))
    {
      payload := Arr(data);
      var body := DoRequest("POST", transport, decode);
      if !Truthy(body) {
        return Ok(None);
      }
      var made := NewInstance(model, helpers, body);
      if made.Err? {
        return Err(made.error);
      }
      return Ok(Some(made.value));
    }

    /** `paginate($perPage, $currentPage)`, with `resolvedPage` for the paginator's current page. */
    method Paginate(perPage: Value, currentPage: Value, resolvedPage: Value,
                    transport: Request -> Outcome, decode: string -> Value)
      returns (r: Result<Page>)
      modifies this
      ensures var page := CurrentPage(currentPage, resolvedPage);
        var s := WithPagination(model, old(State()), perPage, page);
        var o := transport(RequestFor(model, helpers, s, "GET"));
        var records := Listing(model, helpers, o, decode);
        && State() == s.(response := StoredResponse(o))
        && (r.Ok? <==> AllArrays(records))
        && (r.Err? ==> r.error == TypeError)
        && (r.Ok? ==> r.value.perPage == perPage && r.value.currentPage == page)
        && (r.Ok? ==> r.value.total == PageTotal(model, State(), |records|))
        && (r.Ok? ==> BuiltFrom(model, helpers, r.value.items, records))
        && (r.Ok? ==> forall i :: 0 <= i < |r.value.items| ==> fresh(r.value.items[i]))
    {
      var page := CurrentPage(currentPage, resolvedPage);
      if model.setPagination.Some? {
        SetState(model.setPagination.value(State(), perPage, page));
      }
      var results := Get(transport, decode);
      if results.Err? {
        return Err(results.error);
      }
      var total := PageTotal(model, State(), |results.value|);
      return Ok(Page(results.value, total, perPage, page));
    }

    /** `all()`: not implemented; it always throws. */
    method All() returns (r: Result<seq<Restmodel>>)
      ensures r == Err(GenericException)
    {
      r := Err(GenericException);
    }
  }
}

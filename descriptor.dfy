/**
  What a model class declares: the protected properties of a Restmodel subclass that
  uses the HasApi trait, the methods it may add by naming convention (scope<Name>,
  get<Name>Attribute, formatData, and the two hooks of the Paginate contract), and the
  library helpers the model and the builder call.
 */
module Descriptors {
  import opened PhpValues

  /** Library helpers whose code is outside this model, taken as given functions. */
  datatype Helpers = Helpers(
    singular: string -> string,           // str_singular
    snake: string -> string,              // snake_case
    studly: string -> string,             // studly_case
    camel: string -> string,              // camel_case
    castDate: (string, Value) -> Value)   // Carbon::createFromFormat($format, $value)

  /** A transport response: status code and raw body. */
  datatype Response = Response(status: int, body: string)

  /** The per-query fields of a Builder, as a scope handler or a hook sees them. */
  datatype BuilderState = BuilderState(
    query: Pairs,
    payload: Value,
    action: Value,
    id: Value,
    config: Value,
    dataset: Value,
    response: Option<Response>)

  /** A `scope<Name>($builder, ...$args)` method; its effect is the builder's new state. */
  type ScopeHandler = (BuilderState, seq<Value>) -> BuilderState

  /** A `get<Name>Attribute()` accessor, reading the instance's original and attributes. */
  type Accessor = (Pairs, Pairs) -> Value

  datatype ModelClass = ModelClass(
    name: string,              // class_basename(get_class($model))
    connection: Value,
    namespace: Value,
    useNamespace: Value,
    root: Value,
    dates: seq<string>,
    dateFormat: string,
    scopes: seq<string>,
    appends: seq<string>,
    take: Value,
    sortBy: Value,
    extraProperties: map<string, Value>,      // properties the subclass declares besides the base ones
    scopeMethods: map<string, ScopeHandler>,  // keyed by method name, "scopeActive"
    accessors: map<string, Accessor>,         // keyed by method name, "getFullNameAttribute"
    formatData: Pairs -> Pairs,
    setPagination: Option<(BuilderState, Value, Value) -> BuilderState>,
    getTotal: Option<BuilderState -> Value>)

  /** The property values the Restmodel base class declares, for a subclass that changes none. */
  function BaseModel(name: string): (m: ModelClass)
    ensures m.name == name
    ensures m.connection == Null && m.namespace == Null && m.root == Null
    ensures m.useNamespace == Bool(true)
    ensures m.take == Str("take") && m.sortBy == Str("sort")
    ensures m.dateFormat == "Y-m-d"
    ensures m.dates == [] && m.scopes == [] && m.appends == []
    ensures m.extraProperties == map[] && m.scopeMethods == map[] && m.accessors == map[]
    ensures forall d :: m.formatData(d) == d
    ensures m.setPagination.None? && m.getTotal.None?
  {
    ModelClass(
      name, Null, Null, Bool(true), Null, [], "Y-m-d", [], [],
      Str("take"), Str("sort"), map[], map[], map[], d => d, None, None)
  }
}

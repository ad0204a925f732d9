/**
  `Model::method(...)` on a model class that uses HasApi: a new builder for a fresh
  instance, then a scope of that name if the model has one, else a builder method of
  that name, else an error.
 */
module StaticCalls {
  import opened PhpValues
  import opened Descriptors
  import opened BuilderRules
  import opened Builders

  /** The methods the Builder class declares, public or not. */
  const BuilderMethods: set<string> := {
    "__construct", "all", "get", "paginate", "find", "create", "where", "take",
    "orderBy", "action", "id", "on", "dataset", "getEndpoint", "getQuery",
    "getResponse", "getConfig", "getNamespace", "initScopes", "callScope",
    "__call", "doRequest"
  }

  /** Where a static call goes once the builder exists. */
  datatype Route = ViaScope | ViaBuilder | Unavailable

  function StaticRoute(model: ModelClass, name: string): (r: Route)
    ensures r == ViaScope <==> ScopeMethod(name) in model.scopeMethods
    ensures r == ViaBuilder <==> ScopeMethod(name) !in model.scopeMethods && name in BuilderMethods
  {
    if ScopeMethod(name) in model.scopeMethods then ViaScope
    else if name in BuilderMethods then ViaBuilder
    else Unavailable
  }

  /**
    What `__callStatic` hands back: the builder after the scope ran, or the builder
    together with the builder method the call is forwarded to and its arguments.
   */
  datatype StaticReply =
    | Scoped(builder: Builder)
    | Forwarded(builder: Builder, methodName: string, args: seq<Value>)

  method CallStatic(model: ModelClass, h: Helpers, registry: map<string, Value>, defaultName: Value,
                    name: string, args: seq<Value>)
    returns (r: Result<StaticReply>)
    ensures var config := ConnectionConfig(registry, ConnectionName(model, defaultName));
      var start := RunScopes(model, InitialState.(config := config), model.scopes);
      && (!Truthy(config) ==> r == Err(InvalidArgumentException))
      && (Truthy(config) ==> match StaticRoute(model, name)
           case ViaScope =>
             && r.Ok? && r.value.Scoped? && fresh(r.value.builder) && r.value.builder.model == model
             && r.value.builder.State() == ScopeStep(model, start, name, args)
           case ViaBuilder =>
             && r.Ok? && r.value.Forwarded? && fresh(r.value.builder) && r.value.builder.model == model
             && r.value.builder.State() == start
             && r.value.methodName == name && r.value.args == args
           case Unavailable =>
             r == Err(InvalidArgumentException))
  {
    var created := Builder.New(model, h, registry, defaultName);
    if created.Err? {
      return Err(created.error);
    }
    var builder := created.value;
    var handled := builder.CallScope(name, args);
    if handled {
      return Ok(Scoped(builder));
    } else if name in BuilderMethods {
      return Ok(Forwarded(builder, name, args));
    }
    return Err(InvalidArgumentException);
  }

  /** A scope wins over a builder method of the same name: `Model::where()` with `scopeWhere`. */
  lemma ScopeShadowsBuilderMethod(model: ModelClass)
    requires ScopeMethod("where") in model.scopeMethods
    ensures "where" in BuilderMethods && StaticRoute(model, "where") == ViaScope
  {
  }

  /** A name that is neither a scope nor a builder method is refused. */
  lemma UnknownStaticCall(model: ModelClass, name: string)
    requires ScopeMethod(name) !in model.scopeMethods && name !in BuilderMethods
    ensures StaticRoute(model, name) == Unavailable
  {
  }
}

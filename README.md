# restmodel in Dafny

A model of the core of the PHP library *restmodel*, which gives REST APIs an
Eloquent-like interface. A model class extends `Restmodel` and uses the `HasApi` trait. A
static call such as `User::where('a', 1)` creates a `Builder` for a fresh instance. The
builder starts with the connection's config and the model's default scopes. It collects
query parameters, a payload, an id and an action, and builds the endpoint from the
connection url, the version, the namespace, the id and the action. It sends the request
and decides whether the outcome carries a usable body. It then runs a fixed precedence of
rules (declared root key, singular root key, namespace key, sole entry) to find the list
of records inside the body, and builds one model instance per record. A model instance
keeps the formatted data as `original`. Its `attributes` hold the same data with date keys
cast, followed by the appended accessor values. Reads go through `get<Name>Attribute`
accessors first.

Files:

- `values.dfy` (`PhpValues`): the decoded JSON value as PHP holds it, PHP truthiness and
  string conversion, and PHP arrays as ordered key/value sequences. Writing a key
  overwrites it in place or appends it at the end.
- `descriptor.dfy` (`Descriptors`): what a model class declares, the builder's per-query
  state, and the library helpers (`str_singular`, `snake_case`, `studly_case`, `camel_case`,
  Carbon's date cast), which are taken as given functions.
- `restmodel.dfy` (`Restmodels`): the model instance as a class with `original` and
  `attributes`. The constructor has the source's two loops; reads and getters are
  functions.
- `has_api.dfy` (`HasApi`): `getNamespace` and `newInstance`.
- `builder_rules.dfy` (`BuilderRules`): the builder's expression-only rules: endpoint,
  namespace, options, outcome classification, root discovery, scopes, take/orderBy,
  dataset and the paginator's total.
- `builder.dfy` (`Builders`): the `Builder` class. Its methods change its fields as the
  source does, and each is specified by the rules above.
- `static_calls.dfy` (`StaticCalls`): `__callStatic`.

The transport is the function `transport` from the request to its outcome. That outcome
is either an exception that may carry a response, or a response with a status and a raw
body. `json_decode($body, true)` is the function `decode`. The global `config()` registry is
a map from connection name to config, plus the default connection name.

A bare one-element list body `[{"id":1}]` does not yield one record. The sole-entry rule
at src/Builder.php:132-133 replaces any one-entry array by its value, a one-element list
included, so `get()` iterates the fields of that single record and hands each field value
to `newInstance` (`BuilderRules.OneElementListUnwraps`, `Builders.OneRecordListFails`).

## Model

| member | source | states |
|---|---|---|
| PhpValues.ToStr | src/Builder.php:295-301 | a truthy value converts to a non-empty string other than "0"; only strings can contain "/" |
| PhpValues.Decimal | src/Builder.php:295-301 | an int converts to a non-empty decimal string, "0" only for zero, with no "/" |
| PhpValues.KeyOf | src/Builder.php:217-218 | a truthy value used as an array key is its string form |
| PhpValues.Find | src/Restmodel.php:150-151 | a key is found exactly when it is among the array's keys |
| PhpValues.Put | src/Builder.php:210 | `$a[$k] = $v`: the slot of an existing key is overwritten in place, a new key is appended last (properties in PutFind, PutFindOther, PutKeys, PutPut, PutNew) |
| PhpValues.PutFind | src/Builder.php:208-213 | after `$a[$k] = $v`, reading `$a[$k]` gives `$v` |
| PhpValues.PutFindOther | src/Builder.php:208-213 | writing one key leaves every other key's value unchanged |
| PhpValues.PutKeys | src/Restmodel.php:91-93 | writing a key keeps the existing key order and appends a new key last |
| PhpValues.PutKeysPresent | src/Builder.php:208-213 | overwriting a key that is present leaves the key list as it was |
| PhpValues.PutDistinct | src/Restmodel.php:91-93 | writes keep every key unique |
| PhpValues.PutPut | src/Builder.php:208-213 | two writes to the same key equal the last write alone |
| PhpValues.PutNew | src/Restmodel.php:91-93 | writing an absent key appends exactly one entry at the end |
| Descriptors.BaseModel | src/Restmodel.php:16-73 | the base defaults: useNamespace true, take "take", sortBy "sort", dateFormat "Y-m-d", identity formatData, nothing declared |
| Restmodels.PropertyOf | src/Restmodel.php:162-163 | `property_exists` and `$this->$name`: the twelve base properties first, then those the subclass declares |
| Restmodels.AccessorName | src/Restmodel.php:144 | the accessor `__get` looks for is "get" + studly(attribute) + "Attribute" |
| Restmodels.MemberRead | src/Restmodel.php:121 | `$this->$item` inside the class: a declared property, otherwise `__get` |
| Restmodels.Read | src/Restmodel.php:142-155 | `__get` returns the accessor's result if the accessor exists, else the attribute if its key exists (even when null), else null |
| Restmodels.SetAttribute | src/Restmodel.php:103-112 | a key not listed in `dates` keeps its value |
| Restmodels.CallGetter | src/Restmodel.php:157-168 | `__call` succeeds exactly for `get<X>` with an existing property camel(X), returning it; otherwise InvalidArgumentException |
| Restmodels.CastAll | src/Restmodel.php:91-93 | the attributes after the data loop, one `setAttribute` write per entry in order (properties in CastAllEntries, CastAllFind) |
| Restmodels.AppendAll | src/Restmodel.php:118-123 | the attributes after `appendAccessors`, each name written with `$this->$item` read from the attributes so far (properties in AppendAllOthers, AppendAllKeys, AppendedValueAt) |
| Restmodels.InitialOriginal | src/Restmodel.php:81-88 | original after construction: empty for empty data, else formatData(data) |
| Restmodels.InitialAttributes | src/Restmodel.php:81-95 | attributes after construction: empty for empty data, else the cast data followed by the appends |
| Restmodels.Restmodel.constructor | src/Restmodel.php:79-96 | original is formatData(data) and attributes are the cast data followed by the appends; empty data leaves both empty |
| Restmodels.Restmodel.Get | src/Restmodel.php:142-155 | the instance's `__get`: accessor, then attribute, then null |
| Restmodels.Restmodel.Call | src/Restmodel.php:157-168 | the instance's `__call`: only an existing `get<X>` property answers, else InvalidArgumentException |
| Restmodels.Restmodel.ToArray | src/Restmodel.php:184-187 | `toArray()` is exactly the attributes |
| Restmodels.CastAllEntries | src/Restmodel.php:91-93 | on data with distinct keys the loop keeps every key, in order, each with its cast value |
| Restmodels.CastAllFind | src/Restmodel.php:91-93 | each data key ends up holding its cast value, and the key list is the data's key list |
| Restmodels.AppendAllOthers | src/Restmodel.php:118-123 | appending leaves every key that is not in `appends` unchanged |
| Restmodels.AppendAllKeys | src/Restmodel.php:118-123 | the keys present before appending stay, in front, every appended name is present, and no other key appears |
| Restmodels.AppendedValue | src/Restmodel.php:118-123 | the last appended name holds the value `$this->$item` had when it was appended |
| Restmodels.AppendAllSplit | src/Restmodel.php:120-122 | appending two lists of names in turn equals appending their concatenation |
| Restmodels.AppendedValueAt | src/Restmodel.php:118-123 | every appended name that is not appended again later holds its accessor-resolved value, read after the names before it |
| Restmodels.ConstructedAppends | src/Restmodel.php:95 | after construction, each name in `appends` holds the value read when it was appended |
| Restmodels.AttributesCoverData | src/Restmodel.php:85-95 | every formatted key has an attribute; a key that is neither appended nor a date equals its original value |
| Restmodels.PlainModelRoundTrip | src/Restmodel.php:79-96 | with the identity formatData, no dates and no appends, original and attributes both equal the data |
| Restmodels.PlainModelReadBack | src/Restmodel.php:142-155 | on such a model, a read without an accessor gives back the value the data held |
| HasApi.Namespace | src/Traits/HasApi.php:24-27 | the namespace when useNamespace is truthy, else false |
| HasApi.NewInstance | src/Traits/HasApi.php:15-18 | a fresh instance built from the data for an array; a non-array is a TypeError |
| BuilderRules.ConfigItem | src/Builder.php:331-339 | the config entry for the key when present, else null |
| BuilderRules.ConnectionName | src/Builder.php:86 | the model's connection when truthy, else the default connection name |
| BuilderRules.ConnectionConfig | src/Builder.php:262 | the registry entry for the connection name, else null |
| BuilderRules.ResolveNamespace | src/Builder.php:344-355 | the builder's namespace from the model's (property in NamespaceResolution) |
| BuilderRules.NamespaceResolution | src/Builder.php:344-355 | namespace off or false gives null, a truthy namespace gives itself, and anything else gives snake_case of the class name |
| BuilderRules.Endpoint | src/Builder.php:293-302 | url, version, namespace, id and action, falsy ones dropped, joined by "/" (properties in EndpointShape, EndpointExample) |
| BuilderRules.Segments | src/Builder.php:295-301 | no kept segment is empty or "0" |
| BuilderRules.JoinSplit | src/Builder.php:295-301 | joining slash-free segments with "/" and splitting the result returns the segments |
| BuilderRules.EndpointShape | src/Builder.php:293-302 | for any segments, the endpoint is the url, then "/" and each remaining truthy segment in the order version, namespace, id, action; when no segment contains "/", splitting recovers them |
| BuilderRules.SegmentsAvoid | src/Builder.php:295-301 | a character that occurs in no input occurs in no segment |
| BuilderRules.EndpointSplit | src/Builder.php:293-302 | with any url, truthy or not, splitting an endpoint of slash-free values at "/" gives exactly the kept segments |
| BuilderRules.EndpointExample | src/Builder.php:293-302 | url "api", no version, namespace "users", id 5 and no action give "api/users/5" |
| BuilderRules.RequestOptions | src/Builder.php:411-414 | the config options merged with "query" and "json" from the builder (property in RequestOptionsOverride) |
| BuilderRules.RequestFor | src/Builder.php:411-418 | the request `doRequest` sends: the verb, the endpoint and the options from the builder state |
| BuilderRules.StoredResponse | src/Builder.php:418-421 | the response kept in `$this->response`: the returned one, or the exception's, which may be absent |
| BuilderRules.RequestOptionsOverride | src/Builder.php:411-414 | the options carry the builder's query and payload under "query" and "json"; every other key comes from the config options, and keys stay unique |
| BuilderRules.RequestResult | src/Builder.php:416-434 | null on an exception or a status of 300 or more, else the decoded body |
| BuilderRules.Unwrap | src/Builder.php:116-134 | the first matching rule wins: root key, singular root key, set namespace key, then a sole entry replaced by its value |
| BuilderRules.Records | src/Builder.php:136-145 | a falsy or non-array value yields no records; otherwise its values, in order |
| BuilderRules.Discover | src/Builder.php:105-148 | a non-array body yields no records; otherwise the records of the unwrapped body |
| BuilderRules.RootEnvelope | src/Builder.php:121-122 | a body that holds the root key, at any position, yields the records under that key |
| BuilderRules.RootExample | src/Builder.php:121-122 | with root "users", `{"meta": null, "users": [...]}` yields the list under "users" |
| BuilderRules.RootBeatsNamespace | src/Builder.php:121-128 | the root key wins over a namespace key present beside it |
| BuilderRules.SoleEnvelope | src/Builder.php:132-133 | a one-key envelope with an unknown key yields the records inside it |
| BuilderRules.ListPassesThrough | src/Builder.php:132-145 | a list of two or more records that no rule matches yields those records, in order |
| BuilderRules.OneElementListUnwraps | src/Builder.php:132-133 | a one-element list is unwrapped to its record, whose field values become the records |
| BuilderRules.SingularEnvelope | src/Builder.php:124-125 | without the root key, a body holding the singular root key, at any position, yields the records under it |
| BuilderRules.NamespaceEnvelope | src/Builder.php:127-128 | without root or singular root key, a body holding the snake_case namespace key, at any position, has a non-null value there and yields the records under it |
| BuilderRules.SingularExample | src/Builder.php:124-125 | with root "users" and singular "user", `{"user": [a, b, ...]}` yields a, b, ... |
| BuilderRules.UcFirst | src/Builder.php:376 | only a lower-case ASCII first letter is raised; the rest is untouched |
| BuilderRules.ScopeMethod | src/Builder.php:376 | the model method a scope name dispatches to: "scope" + ucfirst(name) |
| BuilderRules.ScopeStep | src/Builder.php:374-385 | `callScope`: the handler's resulting state when the handler exists, else the state unchanged |
| BuilderRules.RunScopes | src/Builder.php:361-366 | `initScopes`: one `callScope` per declared name, in order, without arguments (properties in RunScopesAppend, RunScopesHandledOnly) |
| BuilderRules.RunScopesAppend | src/Builder.php:361-366 | running scope lists one after the other equals running their concatenation |
| BuilderRules.RunScopesSnoc | src/Builder.php:363-365 | one more declared scope name runs exactly one more scope step |
| BuilderRules.Handled | src/Builder.php:374-387 | the kept names are declared names that have a handler |
| BuilderRules.RunScopesHandledOnly | src/Builder.php:361-387 | names without a handler have no effect; only the handled ones matter, in order |
| BuilderRules.FieldFor | src/Builder.php:215-231 | succeeds exactly when the getter answers with a truthy value, which becomes the query key; a falsy value is a RuntimeException; a missing getter is the model's InvalidArgumentException |
| BuilderRules.TakeField | src/Builder.php:215-222 | take uses the `$take` property when it is truthy, else RuntimeException |
| BuilderRules.TakeOnBaseModel | src/Builder.php:215-222 | on the base model, take writes the query key "take" |
| BuilderRules.OrderByWithoutProperty | src/Builder.php:224-231 | orderBy looks for a property `orderBy`; without one it fails with InvalidArgumentException (the base declares `sortBy`) |
| BuilderRules.OrderByWithProperty | src/Builder.php:224-231 | with an `orderBy` property, its truthy value is the query key, else RuntimeException |
| BuilderRules.DatasetValue | src/Builder.php:276-287 | an array is kept as is, a string is kept when it decodes to a truthy value, anything else is InvalidArgumentException |
| BuilderRules.CurrentPage | src/Builder.php:152 | the given page when truthy, else the resolved one |
| BuilderRules.WithPagination | src/Builder.php:154-156 | the state after the `setPagination` hook when the model has it, else unchanged |
| BuilderRules.PageTotal | src/Builder.php:160-166 | the getTotal hook's value when present and truthy, else the item count |
| Builders.Builder.Allocate | src/Builder.php:18-75 | a new builder has an empty query, null payload, action, id and dataset, no response, and config url/version null |
| Builders.Builder.New | src/Builder.php:81-90 | the builder fails exactly when the chosen connection (the model's, else the default) has no truthy config; otherwise it holds that config after the default scopes ran |
| Builders.Builder.On | src/Builder.php:260-269 | a truthy registry entry becomes the config and the builder is returned; otherwise InvalidArgumentException and the config is unchanged |
| Builders.Builder.InitScopes | src/Builder.php:361-366 | the state after calling each declared scope once, in order, without arguments |
| Builders.Builder.CallScope | src/Builder.php:374-387 | true exactly when the `scope` + ucfirst(name) handler exists; the state is that handler's result, else unchanged |
| Builders.Builder.Call | src/Builder.php:394-399 | the builder itself is returned whether or not a scope ran |
| Builders.Builder.Where | src/Builder.php:208-213 | the query gets the value at the key; nothing else changes; the same builder is returned |
| Builders.Builder.Take | src/Builder.php:215-222 | exactly `where(field, n)` when the field resolves; otherwise the error, with the query unchanged |
| Builders.Builder.OrderBy | src/Builder.php:224-231 | exactly `where(field, v)` when the field resolves; otherwise the error, with the query unchanged |
| Builders.Builder.Action | src/Builder.php:238-242 | sets only the action and returns the builder |
| Builders.Builder.Id | src/Builder.php:249-253 | sets only the id and returns the builder |
| Builders.Builder.Dataset | src/Builder.php:276-287 | stores the accepted dataset and returns the builder; on rejection the dataset is unchanged |
| Builders.Builder.GetEndpoint | src/Builder.php:293-302 | the endpoint from the config url and version, the namespace, the id and the action |
| Builders.Builder.GetQuery | src/Builder.php:308-311 | the query parameters |
| Builders.Builder.GetConfig | src/Builder.php:331-339 | the config item for a key |
| Builders.Builder.GetNamespace | src/Builder.php:344-355 | the resolved namespace |
| Builders.Builder.GetResponse | src/Builder.php:317-324 | an existing response is returned as is; with none, a GET is sent first and its response is returned |
| Builders.Builder.DoRequest | src/Builder.php:406-435 | the request is built from the current state; the stored response and the result follow the outcome's classification |
| Builders.Listing | src/Builder.php:108-139 | the records a GET with the given outcome yields: the outcome classified, then discovered |
| Builders.Builder.Get | src/Builder.php:105-148 | one fresh instance per discovered record, in order, each built from its record; a non-array record is a TypeError |
| Builders.BuildEach | src/Builder.php:142-147 | one fresh instance per record, in order, built from it; the first non-array record is a TypeError |
| Builders.OneRecordListFails | src/Builder.php:132-145 | a bare one-record list with a non-array field makes the record list contain a non-array |
| Builders.Builder.Find | src/Builder.php:176-184 | the id is set, a GET is sent, and the first instance is returned, or none when there are no records |
| Builders.Builder.Create | src/Builder.php:191-200 | the payload is the data; a truthy body becomes one fresh instance, a falsy one gives none, and a truthy non-array is a TypeError |
| Builders.Builder.Paginate | src/Builder.php:150-169 | the page is the given one or the resolved one; the hook sets up the state; the items are those of `get()`, the total is PageTotal, and perPage and page pass through |
| Builders.Builder.All | src/Builder.php:96-99 | always fails |
| StaticCalls.StaticRoute | src/Traits/HasApi.php:67-73 | a scope first, then a builder method, then unavailable |
| StaticCalls.CallStatic | src/Traits/HasApi.php:63-74 | a fresh builder; a scope runs on it and it is returned; otherwise a builder method receives the call; otherwise InvalidArgumentException |
| StaticCalls.ScopeShadowsBuilderMethod | src/Traits/HasApi.php:67-70 | a scope named like a builder method (`where`) wins |
| StaticCalls.UnknownStaticCall | src/Traits/HasApi.php:67-73 | a name that is neither a scope nor a builder method is refused |

`getConnection`, `getScopes` and `getRoot` (src/Traits/HasApi.php:33-54) return the
declared properties unchanged, so the model reads the `connection`, `scopes` and `root`
fields of `ModelClass` directly. Scope order is the order of the `scopes` sequence.

## Left out

- The Guzzle transport, `getBody` and `json_decode` are foreign I/O. They are the
  parameters `transport` and `decode`; only what `doRequest` does with their results is
  modelled.
- The `config()` registry is a map from connection name to config, plus the default name.
  `config('restmodel.connections.' . $name)` with dots inside `$name` is a plain lookup.
- Laravel's `LengthAwarePaginator` and `resolveCurrentPage` cannot be seen. A page is the
  record `Page(items, total, perPage, currentPage)`, and the resolved page is an input.
- The Carbon date cast is the given function `castDate(format, value)`. A failing cast is
  not modelled.
- `str_singular`, `snake_case`, `studly_case` and `camel_case` are given functions.
  `array_has`/`array_get` take the key as a plain key, without dot notation.
- Floats are not part of the value type.
- PHP's case-insensitive method names (`method_exists`, `__call` dispatch) are not
  modelled; names are compared exactly.
- PHP refuses an array as an array offset ("Illegal offset type": a warning and no write
  in PHP 7, a TypeError in PHP 8), and `array_has` with an array root checks each of its
  elements. The model instead uses the key "Array" wherever an array value serves as a
  key (a root, a take/orderBy field name). A connection name is concatenated into the
  config key, so an array name there does become "Array", as `BuilderRules.ConnectionConfig`
  has it.
- PHP notices are not modelled. An array converted to a string ("Array to string
  conversion") and the undefined `$total` that `paginate` reads when the model has no
  `getTotal` (src/Builder.php:160-165) raise notices, which Laravel's error handler can turn
  into an `ErrorException`; the model goes on as PHP does with notices silenced (an
  undefined `$total` is null, so the item count is used).
- BuilderRules.Endpoint: turns an array segment into "Array", as PHP's `implode` does. The
  source joins with Laravel's `Collection::implode("/")`, which does that only when the
  first kept segment (normally the url) is not an array; when it is an array or object,
  that method plucks the key "/" from every segment instead. That case is not modelled.
- A non-array truthy `options` config is taken as empty. `array_merge`'s renumbering of
  integer keys in the options is not modelled.
- `getConfig()` without a key returns the whole config; the builder never calls it that
  way, so only the keyed form is modelled.
- `in_array` on `dates` is modelled as exact key membership.
- Scope handlers, accessors, `formatData` and the pagination hooks are total functions,
  so a scope cannot throw. A handler sees and returns the builder's per-query state.
- The builder's `$limit` and `$connection` fields are never read or written, so they are
  not modelled.
- The stored dataset is never read by `doRequest` or `get`, so it does not replace the
  request.
- `Collection` is modelled as a sequence of instances.
- StaticCalls.CallStatic: does not run the forwarded builder method. It returns the builder
  with the method name and arguments; the methods themselves are the `Builder` members above.
- src/RestmodelServiceProvider.php is config publishing plumbing and is not part of this
  model; src/Contracts/Paginate.php becomes the two optional hooks of `ModelClass`.

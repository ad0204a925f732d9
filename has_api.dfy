/**
  The instance side of the HasApi trait: the namespace the model reports and the
  factory the builder uses for every record of a response. The getters
  `getConnection`, `getScopes` and `getRoot` return the declared properties as they
  are; the model reads those fields of `ModelClass` directly.
 */
module HasApi {
  import opened PhpValues
  import opened Descriptors
  import opened Restmodels

  /** `getNamespace()`: the declared namespace, or `false` when namespacing is switched off. */
  function Namespace(cls: ModelClass): (ns: Value)
    ensures Truthy(cls.useNamespace) ==> ns == cls.namespace
    ensures !Truthy(cls.useNamespace) ==> ns == Bool(false)
  {
    if Truthy(cls.useNamespace) then cls.namespace else Bool(false)
  }

  /** `newInstance(array $data)`: a fresh model of the class; a non-array is a TypeError. */
  method NewInstance(cls: ModelClass, h: Helpers, data: Value) returns (r: Result<Restmodel>)
    ensures r.Ok? <==> data.Arr?
    ensures r.Err? ==> r.error == TypeError
    ensures r.Ok? ==> fresh(r.value) && r.value.cls == cls && r.value.helpers == h
    ensures r.Ok? ==> r.value.original == InitialOriginal(cls, data.entries)
    ensures r.Ok? ==> r.value.attributes == InitialAttributes(cls, h, data.entries)
  {
    if data.Arr? {
      var m := new Restmodel(cls, h, data.entries);
      r := Ok(m);
    } else {
      r := Err(TypeError);
    }
  }
}

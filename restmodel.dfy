/**
  A model instance: `original` and `attributes` built from incoming data at
  construction, attribute reads through accessors, and `get<X>()` property getters.
 */
module Restmodels {
  import opened PhpValues
  import opened Descriptors

  /** A PHP list of strings, as a property such as `$scopes` holds it. */
  function StrList(ss: seq<string>): (v: Value)
    ensures v.Arr? && Values(v.entries) == seq(|ss|, i requires 0 <= i < |ss| => Str(ss[i]))
  {
    Arr(List(seq(|ss|, i requires 0 <= i < |ss| => Str(ss[i]))))
  }

  /** `property_exists($this, $name)` and, when it does, `$this->$name`. */
  function PropertyOf(cls: ModelClass, original: Pairs, attributes: Pairs, name: string): Option<Value> {
    if name == "connection" then Some(cls.connection)
    else if name == "namespace" then Some(cls.namespace)
    else if name == "useNamespace" then Some(cls.useNamespace)
    else if name == "root" then Some(cls.root)
    else if name == "original" then Some(Arr(original))
    else if name == "attributes" then Some(Arr(attributes))
    else if name == "dates" then Some(StrList(cls.dates))
    else if name == "dateFormat" then Some(Str(cls.dateFormat))
    else if name == "scopes" then Some(StrList(cls.scopes))
    else if name == "appends" then Some(StrList(cls.appends))
    else if name == "take" then Some(cls.take)
    else if name == "sortBy" then Some(cls.sortBy)
    else if name in cls.extraProperties then Some(cls.extraProperties[name])
    else None
  }

  /** The accessor method `__get` looks for. */
  function AccessorName(h: Helpers, attribute: string): string {
    "get" + h.studly(attribute) + "Attribute"
  }

  /** `__get($attribute)` on an instance whose state is `original` and `attributes`. */
  function Read(cls: ModelClass, h: Helpers, original: Pairs, attributes: Pairs, attribute: string): (r: Value)
    ensures AccessorName(h, attribute) in cls.accessors ==>
              r == cls.accessors[AccessorName(h, attribute)](original, attributes)
    ensures AccessorName(h, attribute) !in cls.accessors && attribute in Keys(attributes) ==>
              Find(attributes, attribute) == Some(r)
    ensures AccessorName(h, attribute) !in cls.accessors && attribute !in Keys(attributes) ==>
              r == Null
  {
    var accessor := AccessorName(h, attribute);
    if accessor in cls.accessors then cls.accessors[accessor](original, attributes)
    else Find(attributes, attribute).GetOr(Null)
  }

  /** `$this->$item` from inside the class: a declared property, otherwise `__get`. */
  function MemberRead(cls: ModelClass, h: Helpers, original: Pairs, attributes: Pairs, item: string): Value {
    match PropertyOf(cls, original, attributes, item)
    case Some(v) => v
    case None => Read(cls, h, original, attributes, item)
  }

  /** `setAttribute($key, $value)`: keys listed in `dates` are cast, others kept. */
  function SetAttribute(cls: ModelClass, h: Helpers, key: Key, value: Value): (r: Value)
    ensures key !in cls.dates ==> r == value
  {
    if key in cls.dates then h.castDate(cls.dateFormat, value) else value
  }

  /** The attributes after the constructor's loop over the (formatted) data. */
  function CastAll(cls: ModelClass, h: Helpers, data: Pairs): Pairs
    decreases |data|
  {
    if data == [] then []
    else
      var last := data[|data| - 1];
      Put(CastAll(cls, h, data[..|data| - 1]), last.0, SetAttribute(cls, h, last.0, last.1))
  }

  /** The attributes after `appendAccessors()` has added `items`, one after the other. */
  function AppendAll(cls: ModelClass, h: Helpers, original: Pairs, attributes: Pairs, items: seq<string>): Pairs
    decreases |items|
  {
    if items == [] then attributes
    else
      var before := AppendAll(cls, h, original, attributes, items[..|items| - 1]);
      var item := items[|items| - 1];
      Put(before, item, MemberRead(cls, h, original, before, item))
  }

  /** `original` after construction; empty data returns before anything is set. */
  function InitialOriginal(cls: ModelClass, data: Pairs): Pairs {
    if data == [] then [] else cls.formatData(data)
  }

  /** `attributes` after construction. */
  function InitialAttributes(cls: ModelClass, h: Helpers, data: Pairs): Pairs {
    if data == [] then []
    else
      var formatted := cls.formatData(data);
      AppendAll(cls, h, formatted, CastAll(cls, h, formatted), cls.appends)
  }

  /** `__call($method)`: only `get<X>` naming an existing property camel(X) answers. */
  function CallGetter(cls: ModelClass, h: Helpers, original: Pairs, attributes: Pairs, methodName: string): (r: Result<Value>)
    ensures r.Ok? <==>
              |methodName| >= 3 && methodName[..3] == "get" &&
              PropertyOf(cls, original, attributes, h.camel(methodName[3..])).Some?
    ensures r.Ok? ==> Some(r.value) == PropertyOf(cls, original, attributes, h.camel(methodName[3..]))
    ensures r.Err? ==> r.error == InvalidArgumentException
  {
    if |methodName| >= 3 && methodName[..3] == "get" then
      match PropertyOf(cls, original, attributes, h.camel(methodName[3..]))
      case Some(v) => Ok(v)
      case None => Err(InvalidArgumentException)
    else Err(InvalidArgumentException)
  }

  class Restmodel {
    const cls: ModelClass
    const helpers: Helpers
    var original: Pairs
    var attributes: Pairs

    /** `new static($data)`. */
    constructor (cls: ModelClass, h: Helpers, data: Pairs)
      ensures this.cls == cls && helpers == h
      ensures original == InitialOriginal(cls, data)
      ensures attributes == InitialAttributes(cls, h, data)
    {
      this.cls := cls;
      helpers := h;
      if data == [] {
        original := [];
        attributes := [];
      } else {
        var formatted := cls.formatData(data);
        var attrs: Pairs := [];
        var i := 0;
        while i < |formatted|
          invariant 0 <= i <= |formatted|
          invariant attrs == CastAll(cls, h, formatted[..i])
        {
          assert formatted[..i + 1][..i] == formatted[..i];
          attrs := Put(attrs, formatted[i].0, SetAttribute(cls, h, formatted[i].0, formatted[i].1));
          i := i + 1;
        }
        assert formatted[..i] == formatted;
        ghost var cast := attrs;
        var j := 0;
        while j < |cls.appends|
          invariant 0 <= j <= |cls.appends|
          invariant attrs == AppendAll(cls, h, formatted, cast, cls.appends[..j])
        {
          assert cls.appends[..j + 1][..j] == cls.appends[..j];
          var item := cls.appends[j];
          attrs := Put(attrs, item, MemberRead(cls, h, formatted, attrs, item));
          j := j + 1;
        }
        assert cls.appends[..j] == cls.appends;
        original := formatted;
        attributes := attrs;
      }
    }

    /** `__get($attribute)`: accessor first, then the attribute map, then null. */
    function Get(attribute: string): (r: Value)
      reads this
      ensures AccessorName(helpers, attribute) in cls.accessors ==>
                r == cls.accessors[AccessorName(helpers, attribute)](original, attributes)
      ensures AccessorName(helpers, attribute) !in cls.accessors && attribute in Keys(attributes) ==>
                Find(attributes, attribute) == Some(r)
      ensures AccessorName(helpers, attribute) !in cls.accessors && attribute !in Keys(attributes) ==>
                r == Null
    {
      Read(cls, helpers, original, attributes, attribute)
    }

    /** `__call($method, $args)`. */
    function Call(methodName: string): (r: Result<Value>)
      reads this
      ensures r.Ok? <==>
                |methodName| >= 3 && methodName[..3] == "get" &&
                PropertyOf(cls, original, attributes, helpers.camel(methodName[3..])).Some?
      ensures r.Ok? ==> Some(r.value) == PropertyOf(cls, original, attributes, helpers.camel(methodName[3..]))
      ensures r.Err? ==> r.error == InvalidArgumentException
    {
      CallGetter(cls, helpers, original, attributes, methodName)
    }

    /** `toArray()`. */
    function ToArray(): (r: Pairs)
      reads this
      ensures r == attributes
    {
      attributes
    }
  }

  /** The attributes the constructor's loop builds, written entry by entry. */
  function CastEach(cls: ModelClass, h: Helpers, data: Pairs): (r: Pairs)
    ensures |r| == |data|
  {
    seq(|data|, i requires 0 <= i < |data| => (data[i].0, SetAttribute(cls, h, data[i].0, data[i].1)))
  }

  /** On data with distinct keys, the loop keeps every key, in order, with its cast value. */
  lemma {:induction false} CastAllEntries(cls: ModelClass, h: Helpers, data: Pairs)
    requires Distinct(data)
    ensures CastAll(cls, h, data) == CastEach(cls, h, data)
    decreases |data|
  {
    if data != [] {
      var n := |data| - 1;
      var init := data[..n];
      assert Distinct(init);
      CastAllEntries(cls, h, init);
      var k := data[n].0;
      assert Keys(CastEach(cls, h, init)) == Keys(init);
      assert k !in Keys(init) by {
        forall i | 0 <= i < n ensures Keys(init)[i] != k {
          assert init[i] == data[i];
        }
      }
      PutNew(CastEach(cls, h, init), k, SetAttribute(cls, h, k, data[n].1));
      assert CastEach(cls, h, init) + [(k, SetAttribute(cls, h, k, data[n].1))] == CastEach(cls, h, data);
    }
  }

  /** Appending leaves every key that is not appended as it was. */
  lemma {:induction false} AppendAllOthers(cls: ModelClass, h: Helpers, original: Pairs, attributes: Pairs, items: seq<string>, k: Key)
    requires k !in items
    ensures Find(AppendAll(cls, h, original, attributes, items), k) == Find(attributes, k)
    decreases |items|
  {
    if items != [] {
      var init := items[..|items| - 1];
      AppendAllOthers(cls, h, original, attributes, init, k);
      var before := AppendAll(cls, h, original, attributes, init);
      PutFindOther(before, items[|items| - 1], k, MemberRead(cls, h, original, before, items[|items| - 1]));
    }
  }

  /** The keys present before appending come first and stay; every appended name is present. */
  lemma {:induction false} AppendAllKeys(cls: ModelClass, h: Helpers, original: Pairs, attributes: Pairs, items: seq<string>)
    ensures var r := AppendAll(cls, h, original, attributes, items);
      Keys(attributes) <= Keys(r) &&
      (forall item :: item in items ==> item in Keys(r)) &&
      (forall k :: k in Keys(r) ==> k in Keys(attributes) || k in items)
    decreases |items|
  {
    if items != [] {
      var init := items[..|items| - 1];
      var item := items[|items| - 1];
      AppendAllKeys(cls, h, original, attributes, init);
      var before := AppendAll(cls, h, original, attributes, init);
      PutKeys(before, item, MemberRead(cls, h, original, before, item));
      assert items == init + [item];
    }
  }

  /** The last appended name holds the value `$this->$item` had when it was appended. */
  lemma AppendedValue(cls: ModelClass, h: Helpers, original: Pairs, attributes: Pairs, items: seq<string>)
    requires items != []
    ensures var before := AppendAll(cls, h, original, attributes, items[..|items| - 1]);
      var item := items[|items| - 1];
      Find(AppendAll(cls, h, original, attributes, items), item) ==
        Some(MemberRead(cls, h, original, before, item))
  {
    var before := AppendAll(cls, h, original, attributes, items[..|items| - 1]);
    var item := items[|items| - 1];
    PutFind(before, item, MemberRead(cls, h, original, before, item));
  }

  /** Appending two lists of names one after the other is appending their concatenation. */
  lemma {:induction false} AppendAllSplit(cls: ModelClass, h: Helpers, original: Pairs, attributes: Pairs,
                                          xs: seq<string>, ys: seq<string>)
    ensures AppendAll(cls, h, original, attributes, xs + ys) ==
              AppendAll(cls, h, original, AppendAll(cls, h, original, attributes, xs), ys)
    decreases |ys|
  {
    if ys == [] {
      assert xs + ys == xs;
    } else {
      var init := ys[..|ys| - 1];
      var zs := xs + ys;
      assert zs[..|zs| - 1] == xs + init;
      assert zs[|zs| - 1] == ys[|ys| - 1];
      AppendAllSplit(cls, h, original, attributes, xs, init);
    }
  }

  /**
    Every appended name that is not appended again later holds the value `$this->$item`
    had when it was appended, after the names before it.
   */
  lemma AppendedValueAt(cls: ModelClass, h: Helpers, original: Pairs, attributes: Pairs, items: seq<string>, j: nat)
    requires j < |items| && items[j] !in items[j + 1..]
    ensures Find(AppendAll(cls, h, original, attributes, items), items[j]) ==
              Some(MemberRead(cls, h, original, AppendAll(cls, h, original, attributes, items[..j]), items[j]))
  {
    var xs := items[..j + 1];
    var ys := items[j + 1..];
    assert items == xs + ys;
    assert xs[..|xs| - 1] == items[..j];
    assert xs[|xs| - 1] == items[j];
    AppendAllSplit(cls, h, original, attributes, xs, ys);
    AppendedValue(cls, h, original, attributes, xs);
    AppendAllOthers(cls, h, original, AppendAll(cls, h, original, attributes, xs), ys, items[j]);
  }

  /** After construction, each name in `appends` holds its value as read when it was appended. */
  lemma ConstructedAppends(cls: ModelClass, h: Helpers, data: Pairs, j: nat)
    requires data != []
    requires j < |cls.appends| && cls.appends[j] !in cls.appends[j + 1..]
    ensures var formatted := cls.formatData(data);
      var before := AppendAll(cls, h, formatted, CastAll(cls, h, formatted), cls.appends[..j]);
      Find(InitialAttributes(cls, h, data), cls.appends[j]) ==
        Some(MemberRead(cls, h, formatted, before, cls.appends[j]))
  {
    var formatted := cls.formatData(data);
    AppendedValueAt(cls, h, formatted, CastAll(cls, h, formatted), cls.appends, j);
  }

  /** The loop over distinct-keyed data gives each key its cast value. */
  lemma CastAllFind(cls: ModelClass, h: Helpers, data: Pairs, i: nat)
    requires Distinct(data) && i < |data|
    ensures Find(CastAll(cls, h, data), data[i].0) == Some(SetAttribute(cls, h, data[i].0, data[i].1))
    ensures Keys(CastAll(cls, h, data)) == Keys(data)
  {
    CastAllEntries(cls, h, data);
    var cast := CastEach(cls, h, data);
    assert Distinct(cast) by {
      assert forall a :: 0 <= a < |data| ==> cast[a].0 == data[a].0;
    }
    FindAt(cast, i);
    assert cast[i] == (data[i].0, SetAttribute(cls, h, data[i].0, data[i].1));
  }

  /** Every key of the formatted data has an attribute; one not appended holds its cast value. */
  lemma AttributesCoverData(cls: ModelClass, h: Helpers, data: Pairs, k: Key)
    requires data != []
    requires Distinct(cls.formatData(data))
    requires k in Keys(cls.formatData(data))
    ensures k in Keys(InitialAttributes(cls, h, data))
    ensures k !in cls.appends ==>
              Find(InitialAttributes(cls, h, data), k) ==
                Some(SetAttribute(cls, h, k, Find(cls.formatData(data), k).value))
    ensures k !in cls.appends && k !in cls.dates ==>
              Find(InitialAttributes(cls, h, data), k) == Find(InitialOriginal(cls, data), k)
  {
    var formatted := cls.formatData(data);
    var cast := CastAll(cls, h, formatted);
    var i :| 0 <= i < |formatted| && Keys(formatted)[i] == k;
    CastAllFind(cls, h, formatted, i);
    FindAt(formatted, i);
    AppendAllKeys(cls, h, formatted, cast, cls.appends);
    if k !in cls.appends {
      AppendAllOthers(cls, h, formatted, cast, cls.appends, k);
    }
  }

  /** In an array with distinct keys, the entry at index i is the one found for its key. */
  lemma {:induction false} FindAt(p: Pairs, i: nat)
    requires Distinct(p) && i < |p|
    ensures Find(p, p[i].0) == Some(p[i].1)
  {
    if i > 0 {
      assert Distinct(p[1..]) by {
        forall a, b | 0 <= a < b < |p[1..]| ensures p[1..][a].0 != p[1..][b].0 {
          assert p[1..][a] == p[a + 1] && p[1..][b] == p[b + 1];
        }
      }
      FindAt(p[1..], i - 1);
      assert p[0].0 != p[i].0;
    }
  }

  /** A model with default formatting, no dates and no appends keeps its data as given. */
  lemma PlainModelRoundTrip(cls: ModelClass, h: Helpers, data: Pairs)
    requires Distinct(data)
    requires forall d :: cls.formatData(d) == d
    requires cls.appends == []
    requires forall i :: 0 <= i < |data| ==> data[i].0 !in cls.dates
    ensures InitialOriginal(cls, data) == data
    ensures InitialAttributes(cls, h, data) == data
  {
    if data != [] {
      CastAllEntries(cls, h, data);
      assert CastEach(cls, h, data) == data;
    }
  }

  /** Reading back a key of such a model returns the value it was built with. */
  lemma PlainModelReadBack(cls: ModelClass, h: Helpers, data: Pairs, attribute: string)
    requires Distinct(data)
    requires forall d :: cls.formatData(d) == d
    requires cls.appends == []
    requires forall i :: 0 <= i < |data| ==> data[i].0 !in cls.dates
    requires AccessorName(h, attribute) !in cls.accessors
    ensures Read(cls, h, InitialOriginal(cls, data), InitialAttributes(cls, h, data), attribute) ==
              Find(data, attribute).GetOr(Null)
  {
    PlainModelRoundTrip(cls, h, data);
  }
}

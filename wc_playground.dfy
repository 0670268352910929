/** src/sutil-wc-playground/src/web-component.js: custom elements whose properties live in
    a store, the first item of the rendered node's disposables, with no conversion; and a
    variant without properties that hands a snapshot of its attributes to the view. */
module WcPlayground {
  import opened JsValues

  /** An item of the rendered node's `__sutil_disposables` list. The first item is read
      as the props store: `value` is its `Value`, and `Update` replaces it. The store's
      subscribers are not part of this model; `updates` counts the updates they are told
      of. */
  class Store {
    var value: map<string, Value>
    var updates: nat

    constructor (value: map<string, Value>)
      ensures this.value == value && updates == 0
    {
      this.value := value;
      updates := 0;
    }

    method Update(f: map<string, Value> -> map<string, Value>)
      modifies this
      ensures value == f(old(value)) && updates == old(updates) + 1
    {
      value := f(value);
      updates := updates + 1;
    }
  }

  /** An item of the rendered node's `__sutil_groups` list. */
  class Group {
    constructor ()
    {
    }
  }

  /** A disposal call made by `disconnectedCallback`. */
  datatype Disposal = Disposed(item: Store) | GroupDisposed(group: Group)

  /** The `Dispose` calls of the first loop: one per non-null item, in list order. */
  function DisposeCalls(items: seq<Store?>): seq<Disposal>
  {
    if items == [] then []
    else
      var last := items[|items| - 1];
      DisposeCalls(items[..|items| - 1]) + (if last == null then [] else [Disposed(last)])
  }

  /** The `_dispose` calls of the second loop: one per non-null group, in list order. */
  function GroupDisposeCalls(groups: seq<Group?>): seq<Disposal>
  {
    if groups == [] then []
    else
      var last := groups[|groups| - 1];
      GroupDisposeCalls(groups[..|groups| - 1]) + (if last == null then [] else [GroupDisposed(last)])
  }

  /** How many items of the list are not null. */
  function StoreCount(xs: seq<Store?>): nat
  {
    if xs == [] then 0 else StoreCount(xs[..|xs| - 1]) + (if xs[|xs| - 1] == null then 0 else 1)
  }

  /** How many groups of the list are not null. */
  function GroupCount(xs: seq<Group?>): nat
  {
    if xs == [] then 0 else GroupCount(xs[..|xs| - 1]) + (if xs[|xs| - 1] == null then 0 else 1)
  }

  /** Exactly the non-null items are disposed, each once per occurrence, and only
      `Disposed` calls are made. */
  lemma {:induction false} DisposeCallsVisitEachItem(items: seq<Store?>)
    ensures |DisposeCalls(items)| == StoreCount(items)
    ensures forall c :: c in DisposeCalls(items) ==> c.Disposed? && c.item in items
    ensures forall s: Store :: s in items ==> Disposed(s) in DisposeCalls(items)
  {
    if items != [] {
      var init := items[..|items| - 1];
      DisposeCallsVisitEachItem(init);
      assert items == init + [items[|items| - 1]];
      forall s: Store | s in items ensures Disposed(s) in DisposeCalls(items) {
        if s in init {
          assert Disposed(s) in DisposeCalls(init);
        }
      }
    }
  }

  /** Exactly the non-null groups are disposed, each once per occurrence. */
  lemma {:induction false} GroupDisposeCallsVisitEachGroup(groups: seq<Group?>)
    ensures |GroupDisposeCalls(groups)| == GroupCount(groups)
    ensures forall c :: c in GroupDisposeCalls(groups) ==> c.GroupDisposed? && c.group in groups
    ensures forall g: Group :: g in groups ==> GroupDisposed(g) in GroupDisposeCalls(groups)
  {
    if groups != [] {
      var init := groups[..|groups| - 1];
      GroupDisposeCallsVisitEachGroup(init);
      assert groups == init + [groups[|groups| - 1]];
      forall g: Group | g in groups ensures GroupDisposed(g) in GroupDisposeCalls(groups) {
        if g in init {
          assert GroupDisposed(g) in GroupDisposeCalls(init);
        }
      }
    }
  }

  /** The body of `disconnectedCallback`: `Dispose` on every non-null disposable, then
      `_dispose` on every non-null group, each list in order. */
  method DisposeAll(disposables: seq<Store?>, groups: seq<Group?>) returns (calls: seq<Disposal>)
    ensures calls == DisposeCalls(disposables) + GroupDisposeCalls(groups)
  {
    calls := [];
    for i := 0 to |disposables|
      invariant calls == DisposeCalls(disposables[..i])
    {
      assert disposables[..i + 1][..i] == disposables[..i];
      if disposables[i] != null {
        calls := calls + [Disposed(disposables[i])];
      }
    }
    assert disposables[..|disposables|] == disposables;
    ghost var first := calls;
    for i := 0 to |groups|
      invariant calls == first + GroupDisposeCalls(groups[..i])
    {
      assert groups[..i + 1][..i] == groups[..i];
      if groups[i] != null {
        calls := calls + [GroupDisposed(groups[i])];
      }
    }
    assert groups[..|groups|] == groups;
  }

  /** An element of the class `customElFactory(defaultValues, viewFn)` defines. Building
      the view is not part of this model: the lists the rendered first child carries are
      given to the constructor. */
  class CustomElement {
    /** The class's `observedAttributes`: the keys of the default values, as written. */
    const observedAttributes: seq<string>
    /** The names that have a property accessor. */
    const accessorKeys: set<string>
    const disposables: seq<Store?>
    const groups: seq<Group?>
    /** The disposal calls made so far. */
    var disposals: seq<Disposal>

    constructor (defaultValues: seq<Entry>, disposables: seq<Store?>, groups: seq<Group?>)
      ensures observedAttributes == Keys(defaultValues)
      ensures accessorKeys == set e | e in defaultValues :: e.key
      ensures this.disposables == disposables && this.groups == groups && disposals == []
    {
      var installed: set<string> := {};
      for i := 0 to |defaultValues|
        invariant installed == set e | e in defaultValues[..i] :: e.key
      {
        assert defaultValues[..i + 1] == defaultValues[..i] + [defaultValues[i]];
        installed := installed + {defaultValues[i].key};
      }
      assert defaultValues[..|defaultValues|] == defaultValues;
      observedAttributes := Keys(defaultValues);
      accessorKeys := installed;
      this.disposables := disposables;
      this.groups := groups;
      disposals := [];
    }

    /** `__sutilFistElStore`: the head of the disposables list. The list library's
        `head` throws on an empty list. */
    function FirstElStore(): Outcome<Store?>
      reads this
    {
      if disposables == [] then Thrown(EmptyListError) else Ok(disposables[0])
    }

    /** The objects a store update may change: the store, when there is one. */
    function StoreFrame(): set<Store>
      reads this
    {
      if disposables != [] && disposables[0] != null then {disposables[0]} else {}
    }

    /** `__getStorePropValue(key)`: the store's value under `key`; undefined when there is
        no store or the store's value has no such property. */
    method GetStorePropValue(key: string) returns (r: Outcome<Value>)
      ensures disposables == [] ==> r == Thrown(EmptyListError)
      ensures disposables != [] && disposables[0] == null ==> r == Ok(Undefined)
      ensures disposables != [] && disposables[0] != null ==>
                r.Ok? && (key in disposables[0].value ==> r.value == disposables[0].value[key])
                && (key !in disposables[0].value ==> r.value == Undefined)
    {
      var found := FirstElStore();
      match found
      case Thrown(e) =>
        r := Thrown(e);
      case Ok(store) =>
        if store == null {
          r := Ok(Undefined);
        } else {
          r := Ok(Property(store.value, key));
        }
    }

    /** `__setStorePropValue(key, value)`: with a non-empty key and a store, the store is
        updated to its value with `key` set to `value`, uncoerced; otherwise nothing
        happens. */
    method SetStorePropValue(key: string, value: Value) returns (r: Outcome<()>)
      modifies StoreFrame()
      ensures disposables == [] ==> r == Thrown(EmptyListError)
      ensures disposables != [] ==> r == Ok(())
      ensures disposables != [] && disposables[0] != null ==>
                var store := disposables[0];
                if key == "" then store.value == old(store.value) && store.updates == old(store.updates)
                else store.value == old(store.value)[key := value] && store.updates == old(store.updates) + 1
    {
      var found := FirstElStore();
      match found
      case Thrown(e) =>
        r := Thrown(e);
      case Ok(store) =>
        if key == "" || store == null {
          r := Ok(());
          return;
        }
        store.Update(state => state[key := value]);
        r := Ok(());
    }

    /** `attributeChangedCallback(name, oldValue, newValue)`: stores `newValue` under
        `name`, as given. */
    method AttributeChangedCallback(name: string, oldValue: Value, newValue: Value) returns (r: Outcome<()>)
      modifies StoreFrame()
      ensures disposables == [] ==> r == Thrown(EmptyListError)
      ensures disposables != [] ==> r == Ok(())
      ensures disposables != [] && disposables[0] != null ==>
                var store := disposables[0];
                if name == "" then store.value == old(store.value) && store.updates == old(store.updates)
                else store.value == old(store.value)[name := newValue] && store.updates == old(store.updates) + 1
    {
      r := SetStorePropValue(name, newValue);
    }

    /** Reading the property `key`. */
    method GetProperty(key: string) returns (r: Outcome<Value>)
      requires key in accessorKeys
      ensures disposables == [] ==> r == Thrown(EmptyListError)
      ensures disposables != [] && disposables[0] == null ==> r == Ok(Undefined)
      ensures disposables != [] && disposables[0] != null ==> r == Ok(Property(disposables[0].value, key))
    {
      r := GetStorePropValue(key);
    }

    /** Assigning the property `key`: the setter reads the current value and calls
        `attributeChangedCallback(key, current, value)`. */
    method SetProperty(key: string, value: Value) returns (r: Outcome<()>)
      requires key in accessorKeys
      modifies StoreFrame()
      ensures disposables == [] ==> r == Thrown(EmptyListError)
      ensures disposables != [] ==> r == Ok(())
      ensures disposables != [] && disposables[0] != null ==>
                var store := disposables[0];
                if key == "" then store.value == old(store.value) && store.updates == old(store.updates)
                else store.value == old(store.value)[key := value] && store.updates == old(store.updates) + 1
    {
      var current := GetStorePropValue(key);
      if current.Thrown? {
        r := Thrown(current.error);
        return;
      }
      r := AttributeChangedCallback(key, current.value, value);
    }

    /** `disconnectedCallback`. */
    method DisconnectedCallback()
      modifies this
      ensures disposals == old(disposals) + DisposeCalls(disposables) + GroupDisposeCalls(groups)
    {
      var calls := DisposeAll(disposables, groups);
      disposals := disposals + calls;
    }
  }

  /** One attribute of an element: its qualified name and value. */
  datatype Attribute = Attribute(name: string, value: string)

  /** `new Set(element.getAttributeNames())`, iterated: each attribute name once. */
  method AttributeNameSet(attrs: seq<Attribute>) returns (names: seq<string>)
    ensures forall i, j :: 0 <= i < j < |names| ==> names[i] != names[j]
    ensures forall n :: n in names <==> exists a :: a in attrs && a.name == n
  {
    names := [];
    for i := 0 to |attrs|
      invariant forall k, j :: 0 <= k < j < |names| ==> names[k] != names[j]
      invariant forall n :: n in names <==> exists a :: a in attrs[..i] && a.name == n
    {
      assert attrs[..i + 1] == attrs[..i] + [attrs[i]];
      if attrs[i].name !in names {
        names := names + [attrs[i].name];
      }
    }
    assert attrs[..|attrs|] == attrs;
  }

  /** `element.getAttribute(name)`: the value of the first attribute with that name. */
  function GetAttribute(attrs: seq<Attribute>, name: string): Option<string>
  {
    if attrs == [] then None
    else if attrs[0].name == name then Some(attrs[0].value)
    else GetAttribute(attrs[1..], name)
  }

  /** The props `customElFactoryNoProps` builds in its constructor: one property per
      attribute name present, whose value is the value of the first attribute of that
      name. */
  method SnapshotProps(attrs: seq<Attribute>) returns (props: map<string, Value>)
    ensures props.Keys == set a | a in attrs :: a.name
    ensures forall i :: 0 <= i < |attrs| && (forall j :: 0 <= j < i ==> attrs[j].name != attrs[i].name) ==>
              props[attrs[i].name] == Str(attrs[i].value)
  {
    var names := AttributeNameSet(attrs);
    props := map[];
    for i := 0 to |names|
      invariant props.Keys == set k | k in names[..i]
      invariant forall k :: k in props ==> props[k] == AttributeValue(GetAttribute(attrs, k))
    {
      assert names[..i + 1] == names[..i] + [names[i]];
      props := props[names[i] := AttributeValue(GetAttribute(attrs, names[i]))];
    }
    assert names[..|names|] == names;
    forall i | 0 <= i < |attrs| && (forall j :: 0 <= j < i ==> attrs[j].name != attrs[i].name)
      ensures props[attrs[i].name] == Str(attrs[i].value)
    {
      assert attrs[i] in attrs;
      FirstAttributeWins(attrs, i);
    }
  }

  lemma {:induction false} FirstAttributeWins(attrs: seq<Attribute>, i: nat)
    requires i < |attrs|
    requires forall j :: 0 <= j < i ==> attrs[j].name != attrs[i].name
    ensures GetAttribute(attrs, attrs[i].name) == Some(attrs[i].value)
  {
    if i > 0 {
      FirstAttributeWins(attrs[1..], i - 1);
    }
  }

  /** An element of the class `customElFactoryNoProps(viewFn)` defines: the view is built
      from a snapshot of the attributes present at construction. */
  class NoPropsElement {
    /** The props handed to the view. */
    const props: map<string, Value>
    const disposables: seq<Store?>
    const groups: seq<Group?>
    var disposals: seq<Disposal>

    constructor (attrs: seq<Attribute>, disposables: seq<Store?>, groups: seq<Group?>)
      ensures props.Keys == set a | a in attrs :: a.name
      ensures forall i :: 0 <= i < |attrs| && (forall j :: 0 <= j < i ==> attrs[j].name != attrs[i].name) ==>
                props[attrs[i].name] == Str(attrs[i].value)
      ensures this.disposables == disposables && this.groups == groups && disposals == []
    {
      var snapshot := SnapshotProps(attrs);
      props := snapshot;
      this.disposables := disposables;
      this.groups := groups;
      disposals := [];
    }

    /** `disconnectedCallback`, the same as `CustomElement`'s. */
    method DisconnectedCallback()
      modifies this
      ensures disposals == old(disposals) + DisposeCalls(disposables) + GroupDisposeCalls(groups)
    {
      var calls := DisposeAll(disposables, groups);
      disposals := disposals + calls;
    }
  }
}

/** The property bridge of src/Sutil/webcomponent.js and src/Sutil/webcomponentinterop.js,
    as values: the accessors installed per key, what a property assignment on the element
    does, what an attribute change does, and what the connect-time copy of attributes
    does. Both files compute the same new model on a set; they differ only in whether the
    model object is updated in place or replaced by a copy, which the classes in
    WebComponent and WebComponentInterop model. */
module PropertyBridge {
  import opened JsValues
  import opened Coercion

  /** The accessors `init` installs: a converter per key, under the key as written. */
  type Accessors = map<string, Converter>

  /** What a property assignment on the element can touch: `model`, the own properties
      of the model object behind the accessors, and `plain`, the element's ordinary own
      properties, which an assignment to a name without an accessor creates. */
  datatype Props = Props(model: map<string, Value>, plain: map<string, Value>)

  /** The result of a sequence of assignments that stops at the first exception. */
  datatype Run = Run(props: Props, error: Option<Exception>)

  /** The accessor table `init` builds from the initial model: one converter per key,
      picked from the key's initial value. */
  function AccessorTable(initModel: seq<Entry>): Accessors
  {
    if initModel == [] then map[]
    else
      var last := initModel[|initModel| - 1];
      AccessorTable(initModel[..|initModel| - 1])[last.key := ConverterFor(last.val)]
  }

  /** The accessors installed are exactly the keys of the initial model and, when no key
      repeats, each key's converter is the one its own initial value selects. */
  lemma {:induction false} AccessorTableMeaning(initModel: seq<Entry>)
    ensures AccessorTable(initModel).Keys == set e | e in initModel :: e.key
    ensures DistinctKeys(initModel) ==>
      forall i :: 0 <= i < |initModel| ==> AccessorTable(initModel)[initModel[i].key] == ConverterFor(initModel[i].val)
  {
    if initModel != [] {
      var init := initModel[..|initModel| - 1];
      AccessorTableMeaning(init);
      assert initModel == init + [initModel[|initModel| - 1]];
    }
  }

  /** The loop of `init` over the keys: each key gets the accessor whose converter is
      picked from its initial value, a later entry of a key replacing an earlier one. */
  method InstallAccessors(initModel: seq<Entry>) returns (accessors: Accessors)
    ensures accessors == AccessorTable(initModel)
  {
    accessors := map[];
    for i := 0 to |initModel|
      invariant accessors == AccessorTable(initModel[..i])
    {
      assert initModel[..i + 1][..i] == initModel[..i];
      accessors := accessors[initModel[i].key := ConverterFor(initModel[i].val)];
    }
    assert initModel[..|initModel|] == initModel;
  }

  /** The observed-attribute list: the keys of the initial model, lower-cased, in key
      order. `toLowerCase` is the host's `String.prototype.toLowerCase`: its full Unicode
      case mapping is not modelled, only that it maps A to Z to a to z on ASCII text. */
  method ObservedAttributes(initModel: seq<Entry>, toLowerCase: string -> string) returns (attributes: seq<string>)
    requires LowersAscii(toLowerCase)
    ensures |attributes| == |initModel|
    ensures forall i :: 0 <= i < |initModel| ==> attributes[i] == toLowerCase(initModel[i].key)
    ensures forall i :: 0 <= i < |initModel| && IsAscii(initModel[i].key) ==> attributes[i] == Lower(initModel[i].key)
  {
    attributes := [];
    for i := 0 to |initModel|
      invariant |attributes| == i
      invariant forall j :: 0 <= j < i ==> attributes[j] == toLowerCase(initModel[j].key)
    {
      attributes := attributes + [toLowerCase(initModel[i].key)];
    }
  }

  /** Reading `element[name]`: through the accessor, the model's property unconverted;
      otherwise the element's own property. */
  function Read(accessors: Accessors, p: Props, name: string): Value
  {
    if name in accessors then Property(p.model, name) else Property(p.plain, name)
  }

  /** The value an assignment of `value` to `element[name]` stores: converted by the
      key's converter when `name` has an accessor, as given otherwise. */
  function Stored(accessors: Accessors, parseFloat: string -> Number, name: string, value: Value): Outcome<Value>
  {
    if name in accessors then Convert(accessors[name], value, parseFloat) else Ok(value)
  }

  /** `element[name] = value`. With an accessor, the setter writes the converted value
      into the model under `name`; a converter that throws leaves everything as it was.
      Without one, the assignment creates or overwrites a plain own property. */
  function Assign(accessors: Accessors, parseFloat: string -> Number, p: Props, name: string, value: Value): Outcome<Props>
  {
    match Stored(accessors, parseFloat, name, value)
    case Thrown(e) => Thrown(e)
    case Ok(v) =>
      if name in accessors then Ok(p.(model := p.model[name := v]))
      else Ok(p.(plain := p.plain[name := v]))
  }

  /** `attributeChangedCallback(name, oldValue, newValue)`: `this[name] = newValue`, with
      null for a removed attribute. */
  function AttributeChanged(accessors: Accessors, parseFloat: string -> Number, p: Props,
                            name: string, newValue: Option<string>): Outcome<Props>
  {
    Assign(accessors, parseFloat, p, name, AttributeValue(newValue))
  }

  /** The attribute loop of `connectedCallback` over `observed[..]`: each observed
      attribute the element has is assigned to the property of the same name; an
      exception ends the loop. */
  function Connect(accessors: Accessors, parseFloat: string -> Number, p: Props,
                   observed: seq<string>, attributes: map<string, string>): Run
  {
    if observed == [] then Run(p, None)
    else
      var r := Connect(accessors, parseFloat, p, observed[..|observed| - 1], attributes);
      var name := observed[|observed| - 1];
      if r.error.Some? || name !in attributes then r
      else
        match Assign(accessors, parseFloat, r.props, name, Str(attributes[name]))
        case Ok(q) => Run(q, None)
        case Thrown(e) => Run(r.props, Some(e))
  }

  /** The model objects the connect-time loop over `observed[..]` hands to `SetModel`, in
      order: one for each step that assigns through an accessor and succeeds, holding the
      model as that step left it. */
  function ConnectModels(accessors: Accessors, parseFloat: string -> Number, p: Props,
                         observed: seq<string>, attributes: map<string, string>): seq<map<string, Value>>
  {
    if observed == [] then []
    else
      var init := observed[..|observed| - 1];
      var name := observed[|observed| - 1];
      var models := ConnectModels(accessors, parseFloat, p, init, attributes);
      var r := Connect(accessors, parseFloat, p, observed, attributes);
      if Connect(accessors, parseFloat, p, init, attributes).error.None? && name in attributes
         && name in accessors && r.error.None?
      then models + [r.props.model]
      else models
  }

  /** How many names of `observed` have an attribute and an accessor. */
  function Bridged(accessors: Accessors, observed: seq<string>, attributes: map<string, string>): nat
  {
    if observed == [] then 0
    else
      var name := observed[|observed| - 1];
      Bridged(accessors, observed[..|observed| - 1], attributes)
        + (if name in attributes && name in accessors then 1 else 0)
  }

  /** Nothing is visible under `name` any more or any less in `q` than in `p`. */
  predicate SameAt(p: Props, q: Props, name: string)
  {
    Property(p.model, name) == Property(q.model, name) && (name in p.model <==> name in q.model)
    && Property(p.plain, name) == Property(q.plain, name) && (name in p.plain <==> name in q.plain)
  }

  // ---- properties ------------------------------------------------------------

  /** A set through the accessor of `name` changes that one key of the model, to the
      converted value, which the getter then returns unconverted; every other name keeps
      what it had. A converter that throws makes the whole assignment throw. */
  lemma SetterChangesOneKey(accessors: Accessors, parseFloat: string -> Number, p: Props,
                            name: string, value: Value)
    ensures var thrown := name in accessors && Convert(accessors[name], value, parseFloat).Thrown?;
            Assign(accessors, parseFloat, p, name, value).Thrown? <==> thrown
    ensures Assign(accessors, parseFloat, p, name, value).Ok? ==>
              var q := Assign(accessors, parseFloat, p, name, value).value;
              && Ok(Read(accessors, q, name)) == Stored(accessors, parseFloat, name, value)
              && (name in accessors ==> q.plain == p.plain && q.model.Keys == p.model.Keys + {name})
              && (name !in accessors ==> q.model == p.model)
              && forall other :: other != name ==> SameAt(p, q, other)
  {
  }

  /** When the model holds exactly the accessor keys, a set keeps it so: the keys of the
      model never change, only values. */
  lemma SetterKeepsModelKeys(accessors: Accessors, parseFloat: string -> Number, p: Props,
                             name: string, value: Value)
    requires p.model.Keys == accessors.Keys
    ensures Assign(accessors, parseFloat, p, name, value).Ok? ==>
              Assign(accessors, parseFloat, p, name, value).value.model.Keys == accessors.Keys
  {
  }

  /** An attribute change reaches the model only for a name that is an accessor key as
      written; for any other name only a plain property of the element changes. */
  lemma AttributeReachesModelOnlyThroughAccessor(accessors: Accessors, parseFloat: string -> Number,
                                                 p: Props, name: string, newValue: Option<string>)
    ensures AttributeChanged(accessors, parseFloat, p, name, newValue).Ok? && name !in accessors ==>
              AttributeChanged(accessors, parseFloat, p, name, newValue).value
                == p.(plain := p.plain[name := AttributeValue(newValue)])
    ensures name in accessors ==>
              match Convert(accessors[name], AttributeValue(newValue), parseFloat)
              case Ok(v) => AttributeChanged(accessors, parseFloat, p, name, newValue) == Ok(p.(model := p.model[name := v]))
              case Thrown(e) => AttributeChanged(accessors, parseFloat, p, name, newValue) == Thrown(e)
  {
  }

  /** Observed attributes are lower-cased keys, but accessors sit under the keys as
      written: when no key equals a key lower-cased (a key with an upper-case letter and
      no lower-case twin), a change of the attribute observed for it only creates a plain
      property and leaves that key, and the whole model, as they were. */
  lemma MixedCaseKeyMissesItsAttribute(initModel: seq<Entry>, toLowerCase: string -> string,
                                       parseFloat: string -> Number, p: Props,
                                       k: nat, newValue: Option<string>)
    requires k < |initModel|
    requires forall e :: e in initModel ==> e.key != toLowerCase(initModel[k].key)
    ensures var accessors := AccessorTable(initModel);
            var name := toLowerCase(initModel[k].key);
            && name != initModel[k].key
            && AttributeChanged(accessors, parseFloat, p, name, newValue)
                 == Ok(p.(plain := p.plain[name := AttributeValue(newValue)]))
            && Read(accessors, AttributeChanged(accessors, parseFloat, p, name, newValue).value, initModel[k].key)
                 == Read(accessors, p, initModel[k].key)
  {
    AccessorTableMeaning(initModel);
    assert initModel[k] in initModel;
  }

  /** The connect-time copy assigns each observed attribute the element has, converted,
      so that on normal completion every such name reads as its attribute stored through
      the name's accessor; names that are not observed or whose attribute is absent keep
      what they had, also when the loop ends in an exception, and an exception comes
      only from converting a present observed attribute. */
  lemma {:induction false} ConnectCopiesPresentAttributes(accessors: Accessors, parseFloat: string -> Number,
                                                          p: Props, observed: seq<string>,
                                                          attributes: map<string, string>)
    ensures var r := Connect(accessors, parseFloat, p, observed, attributes);
            forall name :: name !in observed || name !in attributes ==> SameAt(p, r.props, name)
    ensures var r := Connect(accessors, parseFloat, p, observed, attributes);
            r.error.None? ==>
              forall name :: name in observed && name in attributes ==>
                Stored(accessors, parseFloat, name, Str(attributes[name])) == Ok(Read(accessors, r.props, name))
    ensures var r := Connect(accessors, parseFloat, p, observed, attributes);
            r.error.Some? ==>
              exists name :: name in observed && name in attributes
                && Stored(accessors, parseFloat, name, Str(attributes[name])) == Thrown(r.error.value)
  {
    if observed != [] {
      var init := observed[..|observed| - 1];
      var last := observed[|observed| - 1];
      ConnectCopiesPresentAttributes(accessors, parseFloat, p, init, attributes);
      assert forall name :: name in init ==> name in observed;
      assert observed == init + [last];
      var r := Connect(accessors, parseFloat, p, init, attributes);
      if r.error.None? && last in attributes {
        SetterChangesOneKey(accessors, parseFloat, r.props, last, Str(attributes[last]));
      }
    }
  }

  /** Once the connect-time loop has thrown, the attributes after that one change
      nothing. */
  lemma {:induction false} ConnectStopsAtError(accessors: Accessors, parseFloat: string -> Number, p: Props,
                                               observed: seq<string>, attributes: map<string, string>, i: nat)
    requires i <= |observed|
    requires Connect(accessors, parseFloat, p, observed[..i], attributes).error.Some?
    ensures Connect(accessors, parseFloat, p, observed, attributes)
              == Connect(accessors, parseFloat, p, observed[..i], attributes)
    ensures ConnectModels(accessors, parseFloat, p, observed, attributes)
              == ConnectModels(accessors, parseFloat, p, observed[..i], attributes)
  {
    if i < |observed| {
      var init := observed[..|observed| - 1];
      assert init[..i] == observed[..i];
      ConnectStopsAtError(accessors, parseFloat, p, init, attributes, i);
    } else {
      assert observed[..i] == observed;
    }
  }

  /** One step of the connect-time loop, from `observed[..i]` to `observed[..i + 1]`,
      when no exception has been thrown so far. */
  lemma ConnectStep(accessors: Accessors, parseFloat: string -> Number, p: Props,
                    observed: seq<string>, attributes: map<string, string>, i: nat)
    requires i < |observed|
    requires Connect(accessors, parseFloat, p, observed[..i], attributes).error.None?
    ensures var q := Connect(accessors, parseFloat, p, observed[..i], attributes).props;
            var name := observed[i];
            var r := Connect(accessors, parseFloat, p, observed[..i + 1], attributes);
            && r == (if name !in attributes then Run(q, None)
                     else match Assign(accessors, parseFloat, q, name, Str(attributes[name]))
                          case Ok(q') => Run(q', None)
                          case Thrown(e) => Run(q, Some(e)))
            && ConnectModels(accessors, parseFloat, p, observed[..i + 1], attributes)
                 == if name in attributes && name in accessors && r.error.None?
                    then ConnectModels(accessors, parseFloat, p, observed[..i], attributes) + [r.props.model]
                    else ConnectModels(accessors, parseFloat, p, observed[..i], attributes)
  {
    assert observed[..i + 1][..i] == observed[..i];
  }

  /** The connect-time loop calls `SetModel` once per observed attribute that is present
      and has an accessor, when it completes; when it throws, the attribute that threw
      and those after it make no call. The last call carries the model the loop ends
      with. */
  lemma {:induction false} ConnectCallsSetModelPerBridgedAttribute(accessors: Accessors,
      parseFloat: string -> Number, p: Props, observed: seq<string>, attributes: map<string, string>)
    ensures var r := Connect(accessors, parseFloat, p, observed, attributes);
            var models := ConnectModels(accessors, parseFloat, p, observed, attributes);
            && (r.error.None? ==> |models| == Bridged(accessors, observed, attributes))
            && (r.error.Some? ==> |models| < Bridged(accessors, observed, attributes))
            && (models != [] ==> models[|models| - 1] == r.props.model)
  {
    if observed != [] {
      var init := observed[..|observed| - 1];
      ConnectCallsSetModelPerBridgedAttribute(accessors, parseFloat, p, init, attributes);
    }
  }

  /** The accessor table of the scenario's model. */
  lemma ScenarioAccessors()
    ensures AccessorTable([Entry("count", Num(Integer(0))), Entry("enabled", Bool(false))])
              == map["count" := ToInt, "enabled" := ToBool]
  {
    var initModel := [Entry("count", Num(Integer(0))), Entry("enabled", Bool(false))];
    var first := initModel[..1];
    assert first == [initModel[0]] && first[..0] == [];
    assert AccessorTable(first) == map["count" := ToInt];
    assert initModel[..|initModel| - 1] == first;
  }

  lemma ParseIntOfFive()
    ensures ParseInt("5") == Integer(5)
  {
    assert DecimalString(5) + "" == "5";
    ParseIntReadsDecimal(5, "");
  }

  lemma ToBooleanOfYes()
    ensures ToBoolean(Str("yes")) == Ok(Bool(true))
  {
    assert Lower("yes") == "yes";
  }

  /** The scenario of a model `{count: 0, enabled: false}`: the attribute change
      count="5" makes the property read as the integer 5, and assigning "yes" to
      `enabled` makes it read as true. */
  lemma CountAndEnabledScenario(parseFloat: string -> Number, p: Props)
    ensures var initModel := [Entry("count", Num(Integer(0))), Entry("enabled", Bool(false))];
            var accessors := AccessorTable(initModel);
            var q := AttributeChanged(accessors, parseFloat, p, "count", Some("5"));
            && q.Ok? && Read(accessors, q.value, "count") == Num(Integer(5))
            && var s := Assign(accessors, parseFloat, q.value, "enabled", Str("yes"));
               s.Ok? && Read(accessors, s.value, "enabled") == Bool(true)
                 && Read(accessors, s.value, "count") == Num(Integer(5))
  {
    ScenarioAccessors();
    ParseIntOfFive();
    ToBooleanOfYes();
    var accessors := map["count" := ToInt, "enabled" := ToBool];
    assert Stored(accessors, parseFloat, "count", Str("5")) == Ok(Num(Integer(5)));
    assert Stored(accessors, parseFloat, "enabled", Str("yes")) == Ok(Bool(true));
  }
}

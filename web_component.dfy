/** src/Sutil/webcomponent.js: a custom element whose property setters convert the value
    and write it into the model object in place, then hand the same object back. */
module WebComponent {
  import opened JsValues
  import opened Coercion
  import opened PropertyBridge

  /** A call the element makes on its callbacks object that changes something. */
  datatype Call = CallSetModel(model: map<string, Value>) | CallDispose

  /** The `SetModel` calls that hand over `models`, in order. */
  function SetModelCalls(models: seq<map<string, Value>>): seq<Call>
  {
    if models == [] then []
    else SetModelCalls(models[..|models| - 1]) + [CallSetModel(models[|models| - 1])]
  }

  lemma SetModelCallsAppend(models: seq<map<string, Value>>, m: map<string, Value>)
    ensures SetModelCalls(models + [m]) == SetModelCalls(models) + [CallSetModel(m)]
  {
    assert (models + [m])[..|models|] == models;
  }

  /** The callbacks object `ctor(_)` returns. Its implementation is not part of this
      model: it holds the current model object and records the calls it receives. */
  class Callbacks {
    var model: JsObject
    var calls: seq<Call>

    constructor (model: JsObject)
      ensures this.model == model && calls == []
    {
      this.model := model;
      calls := [];
    }

    method GetModel() returns (m: JsObject)
      ensures m == model
    {
      m := model;
    }

    method SetModel(m: JsObject)
      modifies this
      ensures model == m && calls == old(calls) + [CallSetModel(m.props)]
    {
      model := m;
      calls := calls + [CallSetModel(m.props)];
    }

    method Dispose()
      modifies this
      ensures model == old(model) && calls == old(calls) + [CallDispose]
    {
      calls := calls + [CallDispose];
    }
  }

  /** One instance of the element class `makeWebComponent` defines. */
  class Element {
    const callbacks: Callbacks
    /** The class's `observedAttributes`: the `attributes` list `ObservedAttributes`
        builds with the host's `toLowerCase`. */
    const observed: seq<string>
    /** The accessors `init` installed, by key as written. */
    const accessors: Accessors
    const parseFloat: string -> Number
    /** Ordinary own properties, created by assignments to names without an accessor. */
    var plain: map<string, Value>
    /** The element's attributes, maintained by the host document. */
    var attributes: map<string, string>

    ghost function State(): Props
      reads this, callbacks, callbacks.model
    {
      Props(callbacks.model.props, plain)
    }

    /** Construction and `init`: the callbacks object is the one `ctor` returned, and one
        accessor is installed per key of the initial model, with the converter picked
        from the key's initial value. */
    constructor (initModel: seq<Entry>, observed: seq<string>, toLowerCase: string -> string,
                 callbacks: Callbacks, parseFloat: string -> Number, attributes: map<string, string>)
      requires LowersAscii(toLowerCase) && |observed| == |initModel|
      requires forall i :: 0 <= i < |initModel| ==> observed[i] == toLowerCase(initModel[i].key)
      ensures this.callbacks == callbacks && this.observed == observed && this.parseFloat == parseFloat
      ensures accessors == AccessorTable(initModel)
      ensures plain == map[] && this.attributes == attributes
    {
      var installed := InstallAccessors(initModel);
      this.callbacks := callbacks;
      this.observed := observed;
      this.accessors := installed;
      this.parseFloat := parseFloat;
      plain := map[];
      this.attributes := attributes;
    }

    /** Reading `element[name]`: the getter returns `GetModel()[name]` unconverted. */
    method Get(name: string) returns (v: Value)
      ensures v == Read(accessors, State(), name)
    {
      if name in accessors {
        var m := callbacks.GetModel();
        v := Property(m.props, name);
      } else {
        v := Property(plain, name);
      }
    }

    /** `element[name] = value`. The setter converts the value, writes it into the model
        object it got from `GetModel` and passes that same object to `SetModel`. */
    method Set(name: string, value: Value) returns (r: Outcome<()>)
      modifies this, callbacks, callbacks.model
      ensures callbacks.model == old(callbacks.model) && attributes == old(attributes)
      ensures match Assign(accessors, parseFloat, old(State()), name, value)
              case Ok(q) => r.Ok? && State() == q
              case Thrown(e) => r == Thrown(e) && State() == old(State())
      ensures callbacks.calls == old(callbacks.calls)
                + (if r.Ok? && name in accessors then [CallSetModel(callbacks.model.props)] else [])
    {
      if name in accessors {
        match Convert(accessors[name], value, parseFloat)
        case Thrown(e) =>
          r := Thrown(e);
        case Ok(v) =>
          var m := callbacks.GetModel();
          m.props := m.props[name := v];
          callbacks.SetModel(m);
          r := Ok(());
      } else {
        plain := plain[name := value];
        r := Ok(());
      }
    }

    /** `attributeChangedCallback(name, oldValue, newValue)`: `this[name] = newValue`. */
    method AttributeChangedCallback(name: string, oldValue: Option<string>, newValue: Option<string>)
      returns (r: Outcome<()>)
      modifies this, callbacks, callbacks.model
      ensures callbacks.model == old(callbacks.model) && attributes == old(attributes)
      ensures match AttributeChanged(accessors, parseFloat, old(State()), name, newValue)
              case Ok(q) => r.Ok? && State() == q
              case Thrown(e) => r == Thrown(e) && State() == old(State())
      ensures callbacks.calls == old(callbacks.calls)
                + (if r.Ok? && name in accessors then [CallSetModel(callbacks.model.props)] else [])
    {
      r := Set(name, AttributeValue(newValue));
    }

    /** `connectedCallback`: every observed attribute the element has is assigned to the
        property of the same name; an exception ends the loop and propagates. */
    method ConnectedCallback() returns (r: Outcome<()>)
      modifies this, callbacks, callbacks.model
      ensures callbacks.model == old(callbacks.model) && attributes == old(attributes)
      ensures var run := Connect(accessors, parseFloat, old(State()), observed, attributes);
              State() == run.props && (r.Ok? <==> run.error.None?)
              && (run.error.Some? ==> r == Thrown(run.error.value))
      ensures callbacks.calls == old(callbacks.calls)
                + SetModelCalls(ConnectModels(accessors, parseFloat, old(State()), observed, attributes))
    {
      for i := 0 to |observed|
        invariant callbacks.model == old(callbacks.model) && attributes == old(attributes)
        invariant Connect(accessors, parseFloat, old(State()), observed[..i], attributes) == Run(State(), None)
        invariant callbacks.calls == old(callbacks.calls)
                    + SetModelCalls(ConnectModels(accessors, parseFloat, old(State()), observed[..i], attributes))
      {
        var name := observed[i];
        ConnectStep(accessors, parseFloat, old(State()), observed, attributes, i);
        ghost var models := ConnectModels(accessors, parseFloat, old(State()), observed[..i], attributes);
        if name in attributes {
          var s := Set(name, Str(attributes[name]));
          if s.Thrown? {
            ConnectStopsAtError(accessors, parseFloat, old(State()), observed, attributes, i + 1);
            assert observed[..|observed|] == observed;
            r := s;
            return;
          }
          if name in accessors {
            assert ConnectModels(accessors, parseFloat, old(State()), observed[..i + 1], attributes)
                   == models + [State().model];
            SetModelCallsAppend(models, State().model);
          }
        }
      }
      assert observed[..|observed|] == observed;
      r := Ok(());
    }

    /** `disconnectedCallback`: `Dispose` on the callbacks object, once per call. */
    method DisconnectedCallback()
      modifies callbacks
      ensures callbacks.model == old(callbacks.model)
      ensures callbacks.calls == old(callbacks.calls) + [CallDispose]
    {
      callbacks.Dispose();
    }
  }
}

/** src/Sutil/webcomponentinterop.js: a custom element whose property setters convert
    the value and hand a fresh copy of the model, with that one key replaced, to
    `SetModel`; the previous model object is left as it was. Connecting and disconnecting
    are reported to `OnConnected` and `OnDisconnected`. */
module WebComponentInterop {
  import opened JsValues
  import opened Coercion
  import opened PropertyBridge

  /** A call the element makes on its callbacks object that changes something. */
  datatype Call = CallSetModel(model: map<string, Value>) | CallOnConnected | CallOnDisconnected

  /** The `SetModel` calls that hand over `models`, in order. */
  function SetModelCalls(models: seq<map<string, Value>>): seq<Call>
  {
    if models == [] then []
    else SetModelCalls(models[..|models| - 1]) + [CallSetModel(models[|models| - 1])]
  }

  lemma SetModelCallsAppend(models: seq<map<string, Value>>, m: map<string, Value>)
    ensures SetModelCalls(models + [m]) == SetModelCalls(models) + [CallSetModel(m)]
  {
    assert (models + [m])[..|models|] == models;
  }

  /** The callbacks object `ctor(_)` returns. Its implementation is not part of this
      model: it holds the current model object and records the calls it receives. */
  class Callbacks {
    var model: JsObject
    var calls: seq<Call>

    constructor (model: JsObject)
      ensures this.model == model && calls == []
    {
      this.model := model;
      calls := [];
    }

    method GetModel() returns (m: JsObject)
      ensures m == model
    {
      m := model;
    }

    method SetModel(m: JsObject)
      modifies this
      ensures model == m && calls == old(calls) + [CallSetModel(m.props)]
    {
      model := m;
      calls := calls + [CallSetModel(m.props)];
    }

    method OnConnected()
      modifies this
      ensures model == old(model) && calls == old(calls) + [CallOnConnected]
    {
      calls := calls + [CallOnConnected];
    }

    method OnDisconnected()
      modifies this
      ensures model == old(model) && calls == old(calls) + [CallOnDisconnected]
    {
      calls := calls + [CallOnDisconnected];
    }
  }

  /** One instance of the element class `makeWebComponent` defines. */
  class Element {
    const callbacks: Callbacks
    /** The class's `observedAttributes`: the `attributes` list `ObservedAttributes`
        builds with the host's `toLowerCase`. */
    const observed: seq<string>
    /** The accessors `init` installed, by key as written. */
    const accessors: Accessors
    const parseFloat: string -> Number
    /** Ordinary own properties, created by assignments to names without an accessor. */
    var plain: map<string, Value>
    /** The element's attributes, maintained by the host document. */
    var attributes: map<string, string>

    ghost function State(): Props
      reads this, callbacks, callbacks.model
    {
      Props(callbacks.model.props, plain)
    }

    /** Construction and `init`: the callbacks object is the one `ctor` returned, and one
        accessor is installed per key of the initial model, with the converter picked
        from the key's initial value. */
    constructor (initModel: seq<Entry>, observed: seq<string>, toLowerCase: string -> string,
                 callbacks: Callbacks, parseFloat: string -> Number, attributes: map<string, string>)
      requires LowersAscii(toLowerCase) && |observed| == |initModel|
      requires forall i :: 0 <= i < |initModel| ==> observed[i] == toLowerCase(initModel[i].key)
      ensures this.callbacks == callbacks && this.observed == observed && this.parseFloat == parseFloat
      ensures accessors == AccessorTable(initModel)
      ensures plain == map[] && this.attributes == attributes
    {
      var installed := InstallAccessors(initModel);
      this.callbacks := callbacks;
      this.observed := observed;
      this.accessors := installed;
      this.parseFloat := parseFloat;
      plain := map[];
      this.attributes := attributes;
    }

    /** Reading `element[name]`: the getter returns `GetModel()[name]` unconverted. */
    method Get(name: string) returns (v: Value)
      ensures v == Read(accessors, State(), name)
    {
      if name in accessors {
        var m := callbacks.GetModel();
        v := Property(m.props, name);
      } else {
        v := Property(plain, name);
      }
    }

    /** `element[name] = value`. The setter converts the value, copies the model object
        it got from `GetModel` with that key replaced (`Object.assign`) and passes the copy
        to `SetModel`; the object it got is not modified. */
    method Set(name: string, value: Value) returns (r: Outcome<()>)
      modifies this, callbacks
      ensures attributes == old(attributes)
      ensures old(callbacks.model).props == old(callbacks.model.props)
      ensures if r.Ok? && name in accessors then fresh(callbacks.model) else callbacks.model == old(callbacks.model)
      ensures match Assign(accessors, parseFloat, old(State()), name, value)
              case Ok(q) => r.Ok? && State() == q
              case Thrown(e) => r == Thrown(e) && State() == old(State())
      ensures callbacks.calls == old(callbacks.calls)
                + (if r.Ok? && name in accessors then [CallSetModel(callbacks.model.props)] else [])
    {
      if name in accessors {
        match Convert(accessors[name], value, parseFloat)
        case Thrown(e) =>
          r := Thrown(e);
        case Ok(v) =>
          var m0 := callbacks.GetModel();
          var m1 := new JsObject(m0.props[name := v]);
          callbacks.SetModel(m1);
          r := Ok(());
      } else {
        plain := plain[name := value];
        r := Ok(());
      }
    }

    /** `attributeChangedCallback(name, oldValue, newValue)`: `this[name] = newValue`. */
    method AttributeChangedCallback(name: string, oldValue: Option<string>, newValue: Option<string>)
      returns (r: Outcome<()>)
      modifies this, callbacks
      ensures attributes == old(attributes) && old(callbacks.model).props == old(callbacks.model.props)
      ensures match AttributeChanged(accessors, parseFloat, old(State()), name, newValue)
              case Ok(q) => r.Ok? && State() == q
              case Thrown(e) => r == Thrown(e) && State() == old(State())
      ensures if r.Ok? && name in accessors then fresh(callbacks.model) else callbacks.model == old(callbacks.model)
      ensures callbacks.calls == old(callbacks.calls)
                + (if r.Ok? && name in accessors then [CallSetModel(callbacks.model.props)] else [])
    {
      r := Set(name, AttributeValue(newValue));
    }

    /** The attribute loop of `connectedCallback`: every observed attribute the element
        has is assigned to the property of the same name; an exception ends the loop. */
    method CopyObservedAttributes() returns (r: Outcome<()>)
      modifies this, callbacks
      ensures attributes == old(attributes)
      ensures var run := Connect(accessors, parseFloat, old(State()), observed, attributes);
              State() == run.props && (r.Ok? <==> run.error.None?)
              && (run.error.Some? ==> r == Thrown(run.error.value))
      ensures var models := ConnectModels(accessors, parseFloat, old(State()), observed, attributes);
              && callbacks.calls == old(callbacks.calls) + SetModelCalls(models)
              && if models != [] then fresh(callbacks.model) else callbacks.model == old(callbacks.model)
    {
      ghost var models: seq<map<string, Value>> := [];
      for i := 0 to |observed|
        invariant attributes == old(attributes)
        invariant Connect(accessors, parseFloat, old(State()), observed[..i], attributes) == Run(State(), None)
        invariant models == ConnectModels(accessors, parseFloat, old(State()), observed[..i], attributes)
        invariant callbacks.calls == old(callbacks.calls) + SetModelCalls(models)
        invariant callbacks.model == old(callbacks.model) || fresh(callbacks.model)
        invariant models == [] <==> callbacks.model == old(callbacks.model)
      {
        var name := observed[i];
        ConnectStep(accessors, parseFloat, old(State()), observed, attributes, i);
        if name in attributes {
          ghost var before := callbacks.calls;
          ghost var model := callbacks.model;
          var s := Set(name, Str(attributes[name]));
          if s.Thrown? {
            ConnectStopsAtError(accessors, parseFloat, old(State()), observed, attributes, i + 1);
            assert observed[..|observed|] == observed;
            r := s;
            return;
          }
          if name in accessors {
            assert fresh(callbacks.model);
            assert callbacks.calls == before + [CallSetModel(State().model)];
            SetModelCallsAppend(models, State().model);
            models := models + [State().model];
          } else {
            assert callbacks.model == model;
          }
        }
      }
      assert observed[..|observed|] == observed;
      r := Ok(());
    }

    /** `connectedCallback`: the attribute loop, then `OnConnected` once; an exception
        ends the loop and propagates, and `OnConnected` is not reached. */
    method ConnectedCallback() returns (r: Outcome<()>)
      modifies this, callbacks
      ensures attributes == old(attributes) && old(callbacks.model).props == old(callbacks.model.props)
      ensures var run := Connect(accessors, parseFloat, old(State()), observed, attributes);
              State() == run.props && (r.Ok? <==> run.error.None?)
              && (run.error.Some? ==> r == Thrown(run.error.value))
      ensures var models := ConnectModels(accessors, parseFloat, old(State()), observed, attributes);
              && callbacks.calls == old(callbacks.calls) + SetModelCalls(models) + (if r.Ok? then [CallOnConnected] else [])
              && if models != [] then fresh(callbacks.model) else callbacks.model == old(callbacks.model)
    {
      r := CopyObservedAttributes();
      if r.Ok? {
        callbacks.OnConnected();
      }
    }

    /** `disconnectedCallback`: `OnDisconnected` on the callbacks object and nothing
        else. */
    method DisconnectedCallback()
      modifies callbacks
      ensures callbacks.model == old(callbacks.model)
      ensures callbacks.calls == old(callbacks.calls) + [CallOnDisconnected]
    {
      callbacks.OnDisconnected();
    }
  }
}

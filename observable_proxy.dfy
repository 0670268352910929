/** src/Sutil/proxy.js: a proxy over an object whose `set` trap stores the value on the
    target and then passes the value to a callback, and whose `get` trap reads the
    target. */
module ObservableProxy {
  import opened JsValues

  /** What the callback saw on one call: the value it was given, and the target's
      properties at that moment. */
  datatype Notification = Notification(value: Value, targetProps: map<string, Value>)

  /** The callback given to `makeProxy`. Its body is not part of this model: it records
      each call. */
  class Callback {
    var calls: seq<Notification>

    constructor ()
      ensures calls == []
    {
      calls := [];
    }

    method Call(value: Value, target: JsObject)
      modifies this
      ensures calls == old(calls) + [Notification(value, target.props)]
    {
      calls := calls + [Notification(value, target.props)];
    }
  }

  /** The proxy `makeProxy(obj, handler)` returns. */
  class Proxy {
    const target: JsObject
    const callback: Callback

    /** `makeProxy(obj, handler)`. */
    constructor (target: JsObject, callback: Callback)
      ensures this.target == target && this.callback == callback
    {
      this.target := target;
      this.callback := callback;
    }

    /** The `set` trap: `obj[prop] = value`, then the callback with the value alone, then
        success. Every other property of the target keeps its value, and the callback
        sees the target already updated. */
    method Set(prop: string, value: Value) returns (ok: bool)
      modifies target, callback
      ensures target.props == old(target.props)[prop := value]
      ensures callback.calls == old(callback.calls) + [Notification(value, target.props)]
      ensures ok
    {
      target.props := target.props[prop := value];
      callback.Call(value, target);
      ok := true;
    }

    /** The `get` trap: `obj[prop]`, undefined for a missing property. */
    method Get(prop: string) returns (v: Value)
      ensures v == Property(target.props, prop)
    {
      v := Property(target.props, prop);
    }

    /** A get after a set returns the value set, and a get of any other property returns
        what it returned before the set. */
    method SetThenGet(prop: string, value: Value, other: string) returns (got: Value, otherBefore: Value, otherAfter: Value)
      requires other != prop
      modifies target, callback
      ensures got == value && otherAfter == otherBefore
      ensures |callback.calls| == |old(callback.calls)| + 1
    {
      otherBefore := Get(other);
      var _ := Set(prop, value);
      got := Get(prop);
      otherAfter := Get(other);
    }
  }
}

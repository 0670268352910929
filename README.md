# Sutil web-component bridge, CSS engine converter and devtools helpers, in Dafny

Sutil is an F# (Fable) UI library. Its JavaScript side turns a Sutil view into a custom
element, and it ships a few small tools. This project models that JavaScript and proves
properties of the model:

- **The property bridge** (`src/Sutil/webcomponent.js`, `src/Sutil/webcomponentinterop.js`).
  Each key of the initial model gets a property accessor. The accessor's converter is
  fixed from the key's initial value: `parseInt` for integers, `parseFloat` for other
  numbers, `toBool` for booleans, identity otherwise. Attribute changes and the
  connect-time copy of attributes go through those accessors. The converters and the
  pure state changes are in `Coercion` and `PropertyBridge`. The two element classes are
  `WebComponent.Element` and `WebComponentInterop.Element`. The first writes into the
  model object in place and hands the same object back to `SetModel`. The second hands
  `SetModel` a fresh copy and leaves the old object untouched. It also reports connection
  and disconnection to `OnConnected` and `OnDisconnected`. Both files have the same four
  converters (lines 2-19).
- **The playground elements** (`src/sutil-wc-playground/src/web-component.js`, module
  `WcPlayground`). `customElFactory` keeps its properties in a store: the head of the
  rendered node's disposables. `customElFactoryNoProps` hands the view a snapshot of its
  attributes. On disconnection, both dispose every disposable and every group.
- **The CSS engine converter** (`convert/convert.js`, module `CssConvert`). This is a line
  state machine. It groups `member _.<engine>_<name>` lines into one engine type per run
  of equal engine names, carries the `///` comments along, and prints a field and a member
  per engine at the end.
- **The observable proxy** (`src/Sutil/proxy.js`, module `ObservableProxy`). Its `set`
  trap stores the value and then calls back with the value. Its `get` trap reads the
  target.
- **The devtools panel helpers** (`devtools/js/devtools.js`, module `Devtools`). `scan`
  counts the nodes below a node. `injectedGetStores` lists the page's stores.
  `buildStoresView` tabulates them with `JSON.stringify`.

`JsValues` holds the JavaScript values, exceptions and string helpers the modules share.

Three behaviours of the code are easy to miss. The model follows the code:

- Disconnecting is not idempotent. Every call of `disconnectedCallback` calls `Dispose`
  (or `OnDisconnected`) again, and the playground element disposes its stores again.
- Only the number and boolean converters keep the type of the key's initial value
  (`Coercion.ConverterKeepsType`). The identity converter passes any value through, so
  assigning a number to a string-valued key stores a number. `toBool` throws a
  `TypeError` for a value that is not a string, and that exception leaves the element
  unchanged.
- Observed attribute names are the keys lower-cased, but accessors sit under the keys as
  written. Take a key with an upper-case letter and no lower-case twin among the keys. A
  change of the attribute observed for it creates a plain property and leaves the model
  alone (`PropertyBridge.MixedCaseKeyMissesItsAttribute`).

## Model

| member | source | states |
|---|---|---|
| `Coercion.ToBooleanMeaning` | src/Sutil/webcomponent.js:10-17 | `toBool` gives true exactly for the case-insensitive spellings of "on", "yes" and "true", and false for every other string. A non-string throws. |
| `Coercion.ConverterChoice` | src/Sutil/webcomponent.js:32-37 | The converter is `toInt` exactly for integer numbers, `toFloat` exactly for other numbers, `toBool` exactly for booleans, and identity for everything else. |
| `Coercion.ConverterKeepsType` | src/Sutil/webcomponent.js:32-37 | For a number or boolean initial value, a successful conversion has the initial value's `typeof`. A number key's conversion never throws. |
| `Coercion.ParseIntReadsDecimal` | src/Sutil/webcomponent.js:2-4 | `parseInt` reads back the decimal text of every integer, also when text that cannot continue the number follows it. |
| `Coercion.ParseIntSkipsWhiteSpace` | src/Sutil/webcomponent.js:2-4 | Leading white space never changes what `parseInt` reads. |
| `Coercion.ParseIntOfNonNumeric` | src/Sutil/webcomponent.js:2-4 | Text with no digit after the optional white space and sign parses to NaN. |
| `PropertyBridge.AccessorTableMeaning` | src/Sutil/webcomponent.js:29-49 | The accessors installed are exactly the keys of the initial model. With distinct keys, each key's converter is picked from its own initial value. |
| `PropertyBridge.InstallAccessors` | src/Sutil/webcomponent.js:29-50 | The key loop of `init` builds exactly the accessor table of the initial model, one entry per key. |
| `PropertyBridge.ObservedAttributes` | src/Sutil/webcomponent.js:55-58 | One observed attribute per key, in key order: the key passed through the host's `toLowerCase`. For an ASCII key that is the key with A to Z lower-cased, so "Count" is observed as "count". |
| `PropertyBridge.SetterChangesOneKey` | src/Sutil/webcomponent.js:44-48 | A set throws exactly when the key's converter throws. Otherwise the getter then returns the converted value, and every other name reads as before. |
| `PropertyBridge.SetterKeepsModelKeys` | src/Sutil/webcomponent.js:44-48 | When the model object holds exactly the accessor keys, a set keeps it so: it changes a value and adds or removes no key. A model object lacking an accessor key would gain it. |
| `PropertyBridge.AttributeReachesModelOnlyThroughAccessor` | src/Sutil/webcomponent.js:78-84 | An attribute change converts the new value (null for removal) into the model for an accessor key, and creates only a plain property for any other name. |
| `PropertyBridge.MixedCaseKeyMissesItsAttribute` | src/Sutil/webcomponent.js:55-58 | When no key equals a key lower-cased, the attribute observed for that key has no accessor. Its change creates only a plain property and leaves the key's value unchanged. |
| `PropertyBridge.ConnectCopiesPresentAttributes` | src/Sutil/webcomponent.js:86-92 | After the connect-time loop, each observed attribute that is present reads as its converted value, and every other name keeps its value. An exception comes only from converting a present observed attribute. |
| `PropertyBridge.ConnectStopsAtError` | src/Sutil/webcomponent.js:86-92 | After an exception, the remaining attributes change nothing and make no `SetModel` call. |
| `PropertyBridge.ConnectCallsSetModelPerBridgedAttribute` | src/Sutil/webcomponent.js:86-92 | A connect that completes calls `SetModel` once for each observed attribute that is present and has an accessor. One that throws makes fewer calls. The last call carries the model the loop ends with. |
| `PropertyBridge.CountAndEnabledScenario` | src/Sutil/webcomponent.js:32-48 | With model `{count: 0, enabled: false}`, attribute `count="5"` reads back as the integer 5. Setting `enabled = "yes"` then reads as true, and `count` is unchanged. |
| `WebComponent.Element.constructor` | src/Sutil/webcomponent.js:24-53 | `init` keeps the callbacks object from `ctor` and installs the accessor table of the initial model. |
| `WebComponent.Element.Get` | src/Sutil/webcomponent.js:42-43 | The getter reads the current model's property, unconverted. |
| `WebComponent.Element.Set` | src/Sutil/webcomponent.js:44-48 | The setter produces the state the property bridge prescribes, writing into the same model object. It calls `SetModel` once with the updated properties, only when the set succeeds for an accessor key. |
| `WebComponent.Element.AttributeChangedCallback` | src/Sutil/webcomponent.js:78-84 | An attribute change assigns the new value (null when removed) through the property. The setter's one `SetModel` call, with the same model object, is made exactly when the name has an accessor and the conversion succeeds. |
| `WebComponent.Element.ConnectedCallback` | src/Sutil/webcomponent.js:86-92 | The state after connecting is the bridge's connect-time copy, and an exception is propagated. The calls it makes are exactly one `SetModel` per step that assigns through an accessor and succeeds, in order, each carrying the model as that step left it. |
| `WebComponent.Element.DisconnectedCallback` | src/Sutil/webcomponent.js:94-96 | Each call calls `Dispose` once more. |
| `WebComponentInterop.Element.constructor` | src/Sutil/webcomponentinterop.js:24-55 | `init` keeps the callbacks object from `ctor` and installs the accessor table of the initial model. |
| `WebComponentInterop.Element.Get` | src/Sutil/webcomponentinterop.js:44-45 | The getter reads the current model's property, unconverted. |
| `WebComponentInterop.Element.Set` | src/Sutil/webcomponentinterop.js:46-50 | The setter produces the bridge's state, but in a fresh model object. The object `GetModel` returned keeps its properties. |
| `WebComponentInterop.Element.AttributeChangedCallback` | src/Sutil/webcomponentinterop.js:69-75 | An attribute change assigns the new value through the property. The previous model object is untouched. Exactly when the name has an accessor and the conversion succeeds, one `SetModel` call installs a fresh model object. |
| `WebComponentInterop.Element.CopyObservedAttributes` | src/Sutil/webcomponentinterop.js:78-82 | The attribute loop leaves the bridge's connect-time state and propagates its exception. It makes exactly one `SetModel` per accessor assignment that succeeds, each carrying the model after that step. The model object is a fresh copy after any such call, and the one before otherwise. |
| `WebComponentInterop.Element.ConnectedCallback` | src/Sutil/webcomponentinterop.js:77-84 | The connect-time copy is done as in the bridge. The calls are exactly one `SetModel` per accessor assignment that succeeds, each carrying the model after that step, then `OnConnected` on success only. After any `SetModel` the model object is a fresh copy; otherwise it is the one before. |
| `WebComponentInterop.Element.DisconnectedCallback` | src/Sutil/webcomponentinterop.js:86-88 | Each call calls `OnDisconnected` once more. |
| `WcPlayground.DisposeCallsVisitEachItem` | src/sutil-wc-playground/src/web-component.js:46 | Every non-null disposable is disposed and nothing else: one call per non-null item. |
| `WcPlayground.GroupDisposeCallsVisitEachGroup` | src/sutil-wc-playground/src/web-component.js:47 | Every non-null group is disposed and nothing else: one call per non-null group. |
| `WcPlayground.DisposeAll` | src/sutil-wc-playground/src/web-component.js:45-48 | The disposables are disposed in list order, then the groups. |
| `WcPlayground.CustomElement.constructor` | src/sutil-wc-playground/src/web-component.js:7-22 | The observed attributes are the default values' keys as written, with one accessor per key. |
| `WcPlayground.CustomElement.GetStorePropValue` | src/sutil-wc-playground/src/web-component.js:25-32 | Throws when there is no disposable to take the head of. Gives undefined without a store. Otherwise gives the store value's property, undefined when missing. |
| `WcPlayground.CustomElement.SetStorePropValue` | src/sutil-wc-playground/src/web-component.js:34-39 | Throws when there is no disposable. Does nothing for an empty key or a null store. Otherwise does one store update that sets the key to the value, uncoerced. |
| `WcPlayground.CustomElement.AttributeChangedCallback` | src/sutil-wc-playground/src/web-component.js:41-43 | Throws when there is no disposable. With a store and a non-empty name, one store update stores the new value, uncoerced. For the empty name the store is untouched. |
| `WcPlayground.CustomElement.GetProperty` | src/sutil-wc-playground/src/web-component.js:19 | The property reads the store's value under the key. |
| `WcPlayground.CustomElement.SetProperty` | src/sutil-wc-playground/src/web-component.js:20 | The property reads the old value first (so it throws with no disposables). Then, with a store and a non-empty key, one store update stores the value under the key. For the empty key the store is untouched. |
| `WcPlayground.CustomElement.DisconnectedCallback` | src/sutil-wc-playground/src/web-component.js:45-48 | Each call appends the disposal of every non-null disposable, then of every non-null group. |
| `WcPlayground.AttributeNameSet` | src/sutil-wc-playground/src/web-component.js:57 | Each attribute name once, and only names of attributes. |
| `WcPlayground.SnapshotProps` | src/sutil-wc-playground/src/web-component.js:57-61 | One prop per attribute name. Its value is the string value of the first attribute of that name. |
| `WcPlayground.FirstAttributeWins` | src/sutil-wc-playground/src/web-component.js:60 | `getAttribute` returns the value of the first attribute with the name. |
| `WcPlayground.NoPropsElement.constructor` | src/sutil-wc-playground/src/web-component.js:54-66 | The view gets the attribute snapshot. |
| `WcPlayground.NoPropsElement.DisconnectedCallback` | src/sutil-wc-playground/src/web-component.js:67-70 | Each call appends the disposal of every non-null disposable, then of every non-null group. |
| `CssConvert.CapFst` | convert/convert.js:10-12 | Same length; the first character upper-cased; the rest unchanged. |
| `CssConvert.SplitJoin` | convert/convert.js:18 | Joining the lines with newlines gives the source back. |
| `CssConvert.JoinSplit` | convert/convert.js:18 | Splitting newline-joined lines that contain no newline gives the lines back. |
| `CssConvert.TrimEnd` | convert/convert.js:56 | The result is a prefix of the text, does not end in white space, and only white space was removed. |
| `CssConvert.CommentMatchMeaning` | convert/convert.js:54 | The comment pattern matches exactly when some "///" is followed, after the next line terminator, by white space alone. The captured text runs from the leftmost such "///" to that terminator. |
| `CssConvert.DocCommentLine` | convert/convert.js:54-57 | An indented `///text` line, possibly ending in a carriage return, captures `text`. |
| `CssConvert.Convert` | convert/convert.js:14-70 | The printed lines are those of the line loop over the split source, followed by the trailer over the engines. |
| `CssConvert.ConvertLine` | convert/convert.js:20-58 | One pass of the loop updates `current`, `comments`, `engines` and the output as the conversion step does. |
| `CssConvert.PrintMember` | convert/convert.js:39-51 | A member line prints a blank line and a type header when its engine is new, then the waiting comments, then the member. |
| `CssConvert.PrintComments` | convert/convert.js:46-49 | Each waiting comment is printed as a `///` line, in order. |
| `CssConvert.PrintTrailer` | convert/convert.js:60-70 | A blank line and one field per engine, then a blank line and one member per engine, in declaration order. |
| `CssConvert.RunSummary` | convert/convert.js:20-58 | The member lines printed are the matched lines in order. Every comment is printed or still waiting, in order. The engines are the member names with runs collapsed, one header each. The current engine is the last member's. |
| `CssConvert.CollapseKeepsNames` | convert/convert.js:39-44 | With no empty engine name, the engines declared are exactly the member names. |
| `CssConvert.CollapseDistinct` | convert/convert.js:39-44 | If each engine's members stand together, no engine is declared twice. |
| `CssConvert.EnginesDeclaredOnce` | convert/convert.js:39-44 | With no empty engine name, and each engine's members standing together, every engine is declared exactly once, and exactly the members' engines are declared. |
| `CssConvert.MembersFollowTheirHeader` | convert/convert.js:39-50 | Every printed member has its own engine's type header as the last header above it. |
| `ObservableProxy.Proxy.constructor` | src/Sutil/proxy.js:19-21 | The proxy wraps the given object and callback. |
| `ObservableProxy.Proxy.Set` | src/Sutil/proxy.js:4-11 | Stores the value at the property, changing no other property. Then calls the callback once, with the value alone and the target already updated. Returns true. |
| `ObservableProxy.Proxy.Get` | src/Sutil/proxy.js:12-14 | Reads the target's property, undefined when missing. |
| `ObservableProxy.Proxy.SetThenGet` | src/Sutil/proxy.js:4-14 | A get after a set returns the value set. Other properties read as before. Exactly one callback call is made. |
| `Devtools.Scan` | devtools/js/devtools.js:24-33 | 0 for a missing node. Otherwise the number of the node's proper descendants. |
| `Devtools.DescendantCount` | devtools/js/devtools.js:27-31 | The descendants of a list of siblings number the nodes of their trees, and each descendant's tree is no larger. |
| `Devtools.ScanCountsProperDescendants` | devtools/js/devtools.js:24-33 | `scan` counts the size of the tree minus one: never the node itself, and 0 for a leaf. |
| `Devtools.InjectedGetStores` | devtools/js/devtools.js:39-44 | One record per store id, in the collection's order, holding the id and that store's value. |
| `Devtools.EscapeReadsBack` | devtools/js/devtools.js:127 | The escapes `JSON.stringify` writes in a string read back to the string. |
| `Devtools.EscapeHasNoRawControl` | devtools/js/devtools.js:127 | A serialised string is the body of a well-formed JSON string (section 7 of RFC 8259). Read from the left, every quotation mark and backslash belongs to an escape, and no control character appears raw. |
| `Devtools.StringifyMeaning` | devtools/js/devtools.js:127 | Only undefined has no JSON text. A string serialises to a quoted text that reads back to it. NaN and the infinities serialise as `null`. |
| `Devtools.StoreRows` | devtools/js/devtools.js:120-128 | One body row per store record, in order. The cells are the id and the JSON text of the value. |
| `Devtools.StoresView.BuildStoresView` | devtools/js/devtools.js:100-129 | The view is emptied, then holds one table headed "Id" and "Value" with those rows. |

## Left out

- Host and runtime machinery is not modelled: `customElements.define`, `attachShadow`, `Reflect.construct`, the prototype wiring, Fable's `build`/`makeContext`/`asDomElement`, and the `console.log` in `makeWebComponent`. The callbacks object, the store and its subscribers, and `Dispose` live in compiled F#, which is not part of this model. They are small classes that record the calls they receive.
- `parseFloat` is a parameter, because floating-point parsing is not modelled. Non-integral numbers carry only their text.
- `Coercion.ParseIntReadsDecimal`: rounding above 2^53 and `-0` are not modelled.
- `JsValues.Number`: an integral number is an unbounded `Integer`, and its text is always plain decimal digits. The host writes numbers of magnitude 10^21 and up in exponent form ("1e+21"). So `Devtools.Stringify` and `Devtools.StoreRows` print such a number as decimal digits where `JSON.stringify` writes "1e+21". `Coercion.Convert` with `toInt` also reads it back as itself, where `parseInt("1e+21")` gives 1. Rounding of integers above 2^53 is not modelled either.
- `Coercion.ToBooleanMeaning`: `toLowerCase` is modelled for A to Z only. No other character lower-cases to a letter of "on", "yes" or "true", so the result is the same.
- `CssConvert.CapFst`: upper-cases a to z only. The full Unicode `toUpperCase` can change a string's length, and that is not modelled.
- `CssConvert.Convert`: the member regular expression is a parameter giving each line's capture groups. Its backtracking is not modelled. The comment pattern is modelled in full.
- `fs.readFileSync` and `console.log` in the converter: the source text is the input, and the printed lines are the output.
- The initial model is given as its entries in `Object.keys` order. That order puts integer-like keys first, and it is not derived here.
- Names that `HTMLElement` already defines (`id`, `title` and so on) are treated as plain own properties.
- `WcPlayground.DisposeAll`: the lists are taken as given. A missing first child, and so a missing list, is not modelled. In the source, `head` on the missing disposables list throws; here that is the empty list.
- `JSON.stringify`: `toJSON`, arrays, functions, symbols, cycles and the formatting of non-integral numbers are not modelled. `Devtools.Unescape` decodes only the escapes `JSON.stringify` writes.
- The devtools panel wiring is not modelled: panel creation, `inspectedWindow.eval`, the promise, click handling and error logging are I/O.
- `for ... in` over the records array is taken to visit only its indices, in order.
- The proxy's other traps, symbol keys, and targets with setters or read-only properties are not modelled. The target's properties are plain data properties.
- `PropertyBridge.ObservedAttributes`: the host's `String.prototype.toLowerCase` is a parameter. It is constrained only to lower-case A to Z on ASCII strings, because Unicode case mapping is not modelled. For a key such as "Ärger" the model fixes no observed name, where the host gives "ärger".
- `ObservableProxy.Proxy.Set`: the callback is taken to return normally and not to write to the target. In the source, a handler that throws ends the trap before it returns true, and a handler that writes to the target changes other properties. Neither case is modelled.
- `WebComponent.Element.constructor`: `init` also creates the own property `sutilCallbacks`, holding the callbacks object. The model's values cannot hold an object reference, so it is not among the plain properties, and reading it gives undefined here.
- `WebComponentInterop.Element.constructor`: the same for its `sutilCallbacks` own property.
- `JsValues.Property`: a property read sees own data properties only. The prototype chain is not modelled, so a name found only on `Object.prototype` ("constructor", "toString", "hasOwnProperty") reads as undefined in the model. In the source, `GetModel()[key]`, `store?.Value?.[key]` and `obj[prop]` return the inherited function.
- `Devtools.EscapeChar`: strings are sequences of Unicode scalar values. A JavaScript string can hold an unpaired surrogate, which `JSON.stringify` writes as a `\udxxx` escape. Such strings cannot be represented here, so that case is not modelled.

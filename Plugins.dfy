/**
 * The exporter's plugin registry: `registerPlugin` validates a plugin
 * descriptor, calls the plugin's constructor and routes the callbacks it
 * returns into three lists, which the export later runs in order.
 *
 * JavaScript values are modelled by `JsValue`; functions are identified by
 * a number and what calling one returns is given by an `Invoke` parameter.
 * The callbacks themselves, the JSDOM document and the files it reads and
 * writes are not part of this model.
 */
module Plugins {
  import opened Common

  datatype JsValue =
    | Undefined
    | Null
    | Bool(b: bool)
    | Number(n: real)
    | NaN
    | Str(s: string)
    | Function(id: nat)
    | Object(props: map<string, JsValue>)

  /** The result of calling the function `id` with one argument. */
  type Invoke = (nat, JsValue) -> JsValue

  /** JavaScript `typeof`; note that `typeof null` is "object". */
  function TypeOf(v: JsValue): (r: string)
    ensures r == "object" <==> v.Null? || v.Object?
    ensures r == "function" <==> v.Function?
    ensures r == "undefined" <==> v.Undefined?
  {
    match v
    case Undefined => "undefined"
    case Null => "object"
    case Bool(_) => "boolean"
    case Number(_) => "number"
    case NaN => "number"
    case Str(_) => "string"
    case Function(_) => "function"
    case Object(_) => "object"
  }

  /** JavaScript truthiness. */
  predicate Truthy(v: JsValue)
  {
    match v
    case Undefined => false
    case Null => false
    case Bool(b) => b
    case Number(n) => n != 0.0
    case NaN => false
    case Str(s) => s != ""
    case Function(_) => true
    case Object(_) => true
  }

  /** A property read on an object; a missing key reads as `undefined`. */
  function Get(props: map<string, JsValue>, key: string): JsValue
  {
    if key in props then props[key] else Undefined
  }

  const EmptyObject: JsValue := Object(map[])

  /**
   * The argument given to a plugin constructor: `options || {}`. Only an
   * object or `undefined` gets this far, so `{}` replaces `undefined` and
   * `null`.
   */
  function ConstructorArgument(options: JsValue): (r: JsValue)
    ensures options.Object? ==> r == options
    ensures options.Undefined? || options.Null? ==> r == EmptyObject
  {
    if Truthy(options) then options else EmptyObject
  }

  /**
   * `registerPlugin` up to the pushes, as written: `Ok(None)` when it logs an
   * error and registers nothing, `Ok(Some(callbacks))` with the object the
   * plugin returned, and `Throws` where it reads a property of `null`,
   * which `typeof` lets through as an "object" both for the descriptor and
   * for the value the constructor returns.
   */
  function PluginCallbacksAsWritten(plugin: JsValue, invoke: Invoke): (r: Result<Option<map<string, JsValue>>>)
    ensures plugin.Null? ==> r.Throws?
    ensures !plugin.Function? && TypeOf(plugin) != "object" ==> r == Ok(None)
  {
    var callbacks :=
      if plugin.Function? then Some(invoke(plugin.id, EmptyObject))
      else if TypeOf(plugin) != "object" then None
      else if plugin.Null? then None
      else
        var ctor := Get(plugin.props, "plugin");
        var options := Get(plugin.props, "options");
        if TypeOf(options) != "object" && TypeOf(options) != "undefined" then None
        else if TypeOf(ctor) != "function" then None
        else Some(invoke(ctor.id, ConstructorArgument(options)));
    if plugin.Null? then Throws("Cannot destructure property 'plugin' of null")
    else if callbacks.None? then Ok(None)
    else if TypeOf(callbacks.value) != "object" then Ok(None)
    else if callbacks.value.Null? then Throws("Cannot read property 'preExport' of null")
    else Ok(Some(callbacks.value.props))
  }

  /** A `null` descriptor makes `registerPlugin` throw instead of reporting an invalid plugin. */
  lemma NullPluginThrows(invoke: Invoke)
    ensures PluginCallbacksAsWritten(Null, invoke).Throws?
  {
  }

  /** A constructor returning `null` makes `registerPlugin` throw as well. */
  lemma NullCallbacksThrow(id: nat, invoke: Invoke)
    requires invoke(id, EmptyObject) == Null
    ensures PluginCallbacksAsWritten(Function(id), invoke).Throws?
  {
  }

  /**
   * The validation as intended: a descriptor that is neither a function nor
   * a non-null object, options that are neither an object nor undefined, a
   * `plugin` field that is not a function, or callbacks that are not a
   * non-null object all register nothing.
   */
  function PluginCallbacks(plugin: JsValue, invoke: Invoke): (r: Option<map<string, JsValue>>)
    ensures !plugin.Function? && !plugin.Object? ==> r.None?
    ensures plugin.Function? && invoke(plugin.id, EmptyObject).Object? ==> r == Some(invoke(plugin.id, EmptyObject).props)
    ensures plugin.Function? && !invoke(plugin.id, EmptyObject).Object? ==> r.None?
    ensures plugin.Object? ==>
      var ctor := Get(plugin.props, "plugin");
      var options := Get(plugin.props, "options");
      && (!(options.Object? || options.Null? || options.Undefined?) ==> r.None?)
      && (!ctor.Function? ==> r.None?)
      && ((options.Object? || options.Null? || options.Undefined?) && ctor.Function? ==>
            (invoke(ctor.id, ConstructorArgument(options)).Object? ==> r == Some(invoke(ctor.id, ConstructorArgument(options)).props))
            && (!invoke(ctor.id, ConstructorArgument(options)).Object? ==> r.None?))
  {
    var callbacks :=
      if plugin.Function? then invoke(plugin.id, EmptyObject)
      else if !plugin.Object? then Undefined
      else
        var ctor := Get(plugin.props, "plugin");
        var options := Get(plugin.props, "options");
        if TypeOf(options) != "object" && TypeOf(options) != "undefined" then Undefined
        else if TypeOf(ctor) != "function" then Undefined
        else invoke(ctor.id, ConstructorArgument(options));
    if callbacks.Object? then Some(callbacks.props) else None
  }

  /** The intended validation agrees with the written one wherever the latter does not throw. */
  lemma PluginCallbacksAgree(plugin: JsValue, invoke: Invoke)
    ensures PluginCallbacksAsWritten(plugin, invoke).Ok? ==>
      PluginCallbacksAsWritten(plugin, invoke).value == PluginCallbacks(plugin, invoke)
    ensures PluginCallbacksAsWritten(plugin, invoke).Throws? ==> PluginCallbacks(plugin, invoke).None?
  {
  }

  /** The callback a callbacks object gives for `key`, kept only when truthy. */
  function CallbackFor(callbacks: Option<map<string, JsValue>>, key: string): (r: seq<JsValue>)
    ensures |r| <= 1
    ensures |r| == 1 <==> callbacks.Some? && Truthy(Get(callbacks.value, key))
    ensures |r| == 1 ==> r[0] == Get(callbacks.value, key)
  {
    if callbacks.Some? && Truthy(Get(callbacks.value, key)) then [Get(callbacks.value, key)] else []
  }

  /** JavaScript `array.size`: arrays have no such property. */
  function ArraySize(a: seq<JsValue>): JsValue
  {
    Undefined
  }

  /** `x === 0`. */
  predicate StrictEqualsZero(v: JsValue)
  {
    v == Number(0.0)
  }

  /** What `runDocument` does: nothing, or parse index.html, run the callbacks in order and write it back. */
  datatype DocumentRun = Skipped | Rewritten(calls: seq<JsValue>)

  /** `runDocument` as written: the `.size === 0` test never holds. */
  function RunDocumentAsWritten(documentCallbacks: seq<JsValue>): (r: DocumentRun)
    ensures r.Rewritten? && r.calls == documentCallbacks
  {
    if StrictEqualsZero(ArraySize(documentCallbacks)) then Skipped else Rewritten(documentCallbacks)
  }

  /** With no document callback, index.html is still parsed and written back. */
  lemma EmptyDocumentStillRewritten()
    ensures RunDocumentAsWritten([]) == Rewritten([])
  {
  }

  /** `runDocument` as intended: the document is only touched when some plugin patches it. */
  function RunDocument(documentCallbacks: seq<JsValue>): (r: DocumentRun)
    ensures r.Skipped? <==> documentCallbacks == []
    ensures r.Rewritten? ==> r.calls == documentCallbacks
  {
    if |documentCallbacks| == 0 then Skipped else Rewritten(documentCallbacks)
  }

  /** The three callback lists of the exporter. */
  class PluginRegistry {
    var preExportCallbacks: seq<JsValue>
    var documentCallbacks: seq<JsValue>
    var postExportCallbacks: seq<JsValue>

    /** Only truthy values are ever registered as callbacks. */
    ghost predicate Valid()
      reads this
    {
      && (forall i :: 0 <= i < |preExportCallbacks| ==> Truthy(preExportCallbacks[i]))
      && (forall i :: 0 <= i < |documentCallbacks| ==> Truthy(documentCallbacks[i]))
      && (forall i :: 0 <= i < |postExportCallbacks| ==> Truthy(postExportCallbacks[i]))
    }

    constructor ()
      ensures Valid()
      ensures preExportCallbacks == [] && documentCallbacks == [] && postExportCallbacks == []
    {
      preExportCallbacks := [];
      documentCallbacks := [];
      postExportCallbacks := [];
    }

    /**
     * `registerPlugin`: each callback the plugin returns is appended once to
     * its own list; an invalid plugin registers nothing.
     */
    method RegisterPlugin(plugin: JsValue, invoke: Invoke)
      requires Valid()
      modifies this
      ensures Valid()
      ensures var callbacks := PluginCallbacks(plugin, invoke);
        && preExportCallbacks == old(preExportCallbacks) + CallbackFor(callbacks, "preExport")
        && documentCallbacks == old(documentCallbacks) + CallbackFor(callbacks, "document")
        && postExportCallbacks == old(postExportCallbacks) + CallbackFor(callbacks, "postExport")
    {
      var callbacks := PluginCallbacks(plugin, invoke);
      if callbacks.None? {
        return;
      }
      var cb := callbacks.value;
      if Truthy(Get(cb, "preExport")) {
        preExportCallbacks := preExportCallbacks + [Get(cb, "preExport")];
      }
      if Truthy(Get(cb, "document")) {
        documentCallbacks := documentCallbacks + [Get(cb, "document")];
      }
      if Truthy(Get(cb, "postExport")) {
        postExportCallbacks := postExportCallbacks + [Get(cb, "postExport")];
      }
    }

    /**
     * `runPreExport`: the callbacks called with the project, in registration
     * order; `announced` is whether the progress message is logged, which,
     * since the `.size === 0` test never holds, it always is.
     */
    method RunPreExport() returns (announced: bool, calls: seq<JsValue>)
      ensures announced
      ensures calls == preExportCallbacks
    {
      if StrictEqualsZero(ArraySize(preExportCallbacks)) {
        return false, [];
      }
      announced := true;
      calls := [];
      var i := 0;
      while i < |preExportCallbacks|
        invariant 0 <= i <= |preExportCallbacks|
        invariant calls == preExportCallbacks[..i]
      {
        calls := calls + [preExportCallbacks[i]];
        i := i + 1;
      }
    }

    /**
     * `runPostExport`: first the document step (with the intended emptiness
     * test), then the post-export callbacks, in registration order.
     */
    method RunPostExport() returns (document: DocumentRun, calls: seq<JsValue>)
      ensures document == RunDocument(documentCallbacks)
      ensures calls == postExportCallbacks
    {
      document := RunDocument(documentCallbacks);
      calls := [];
      var i := 0;
      while i < |postExportCallbacks|
        invariant 0 <= i <= |postExportCallbacks|
        invariant calls == postExportCallbacks[..i]
      {
        calls := calls + [postExportCallbacks[i]];
        i := i + 1;
      }
    }
  }

  /** A function plugin is called with `{}`, and a descriptor's constructor with its options or `{}`. */
  lemma ConstructorArguments(id: nat, options: JsValue, invoke: Invoke)
    requires options.Object? || options.Undefined?
    ensures PluginCallbacks(Function(id), invoke) ==
      (if invoke(id, EmptyObject).Object? then Some(invoke(id, EmptyObject).props) else None)
    ensures var d := Object(map["plugin" := Function(id), "options" := options]);
      PluginCallbacks(d, invoke) ==
      (if invoke(id, ConstructorArgument(options)).Object? then Some(invoke(id, ConstructorArgument(options)).props) else None)
  {
    var d := Object(map["plugin" := Function(id), "options" := options]);
    assert Get(d.props, "plugin") == Function(id);
    assert Get(d.props, "options") == options;
  }
}

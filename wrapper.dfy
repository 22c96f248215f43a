/**
 * Handler redirection (src/wrapper.ts): every function's entry point is
 * replaced by the Datadog instrumentation entry point of its runtime, and the
 * original entry point is recorded in the function's environment under
 * `DD_LAMBDA_HANDLER`.
 */
module Wrapper {
  import opened Wrappers

  // The constants that form the contract with the runtime-side libraries.
  const DatadogHandlerEnvVar: string := "DD_LAMBDA_HANDLER"
  const PythonHandler: string := "datadog_lambda.handler.handler"
  const PythonHandlerFile: string := "datadog_lambda.handler.py"
  const JsHandlerLayerPrefix: string := "/opt/nodejs/"
  const JsHandler: string := "node_modules/datadog-lambda-js/handler.handler"
  const JsHandlerFile: string := "node_modules/datadog-lambda-js/handler.js"

  /** The runtimes the redirection distinguishes; every other runtime is `Other`. */
  datatype RuntimeType = Node | Python | Other

  /** The packaging section of a function: optional include and exclude lists. */
  datatype Package = Package(includes: Option<seq<string>>, excludes: Option<seq<string>>)

  /** The replacement entry point and the file that holds it. */
  datatype DDHandler = DDHandler(handler: string, handlerFile: string)

  /** A snapshot of the fields of a handler record that the redirection reads or writes. */
  datatype HandlerRecord = HandlerRecord(
    handler: string,
    environment: Option<map<string, string>>,
    package: Option<Package>)

  /** The function's handler record, owned by the deployment manifest and updated in place. */
  class HandlerSpec {
    var handler: string
    var environment: Option<map<string, string>>
    var package: Option<Package>

    constructor (handler: string, environment: Option<map<string, string>>, package: Option<Package>)
      ensures Record() == HandlerRecord(handler, environment, package)
    {
      this.handler := handler;
      this.environment := environment;
      this.package := package;
    }

    /** The current values of the fields. */
    function Record(): HandlerRecord
      reads this
    {
      HandlerRecord(handler, environment, package)
    }
  }

  /** A function of the deployment: its name, its runtime (possibly undefined)
      and a reference to its handler record. */
  datatype FunctionInfo = FunctionInfo(name: string, runtime: Option<RuntimeType>, handler: HandlerSpec)

  /** The Datadog entry point for a runtime: defined for Node and Python only. */
  function GetDDHandler(runtime: Option<RuntimeType>, addLayers: bool): (r: Option<DDHandler>)
    ensures r.None? <==> runtime.None? || runtime.value.Other?
    ensures runtime == Some(Node) ==>
      (addLayers <==> JsHandlerLayerPrefix <= r.value.handler) &&
      (addLayers <==> JsHandlerLayerPrefix <= r.value.handlerFile) &&
      r.value.handler[(if addLayers then |JsHandlerLayerPrefix| else 0)..] == JsHandler &&
      r.value.handlerFile[(if addLayers then |JsHandlerLayerPrefix| else 0)..] == JsHandlerFile
    ensures runtime == Some(Python) ==> r.value.handler == PythonHandler && r.value.handlerFile == PythonHandlerFile
  {
    match runtime
    case None => None
    case Some(Node) =>
      // The bare paths do not start with the layer mount prefix.
      assert JsHandler[0] != JsHandlerLayerPrefix[0] && JsHandlerFile[0] != JsHandlerLayerPrefix[0];
      var finalJsHandler := if addLayers then JsHandlerLayerPrefix + JsHandler else JsHandler;
      var finalJsHandlerFile := if addLayers then JsHandlerLayerPrefix + JsHandlerFile else JsHandlerFile;
      Some(DDHandler(finalJsHandler, finalJsHandlerFile))
    case Some(Python) => Some(DDHandler(PythonHandler, PythonHandlerFile))
    case Some(Other) => None
  }

  /** The environment after the original handler is recorded in it (created when absent). */
  function WithOriginalHandler(environment: Option<map<string, string>>, original: string): (r: map<string, string>)
    ensures DatadogHandlerEnvVar in r && r[DatadogHandlerEnvVar] == original
    ensures environment.None? ==> r == map[DatadogHandlerEnvVar := original]
    ensures environment.Some? ==> r.Keys == environment.value.Keys + {DatadogHandlerEnvVar}
    ensures environment.Some? ==>
      forall k :: k in environment.value && k != DatadogHandlerEnvVar ==> r[k] == environment.value[k]
  {
    environment.GetOr(map[])[DatadogHandlerEnvVar := original]
  }

  /** The packaging section after it and its include list are made to exist. */
  function WithInclude(package: Option<Package>): (r: Package)
    ensures r.includes.Some?
    ensures package.None? ==> r == Package(Some([]), Some([]))
    ensures package.Some? ==> r.excludes == package.value.excludes
    ensures package.Some? && package.value.includes.Some? ==> r == package.value
    ensures package.Some? && package.value.includes.None? ==> r.includes == Some([])
  {
    var p := if package.None? then Package(Some([]), Some([])) else package.value;
    if p.includes.None? then p.(includes := Some([])) else p
  }

  /** What redirecting one function does to its handler record: the original
      handler is always recorded; the handler and packaging section change only
      when the runtime has a Datadog entry point. */
  function Redirect(rec: HandlerRecord, runtime: Option<RuntimeType>, addLayers: bool): (r: HandlerRecord)
    ensures r.environment.Some? && DatadogHandlerEnvVar in r.environment.value
    ensures r.environment.value[DatadogHandlerEnvVar] == rec.handler
    ensures GetDDHandler(runtime, addLayers).None? ==> r.handler == rec.handler && r.package == rec.package
    ensures GetDDHandler(runtime, addLayers).Some? ==>
      r.handler == GetDDHandler(runtime, addLayers).value.handler &&
      r.package.Some? && r.package.value.includes.Some?
  {
    var recorded := rec.(environment := Some(WithOriginalHandler(rec.environment, rec.handler)));
    match GetDDHandler(runtime, addLayers)
    case None => recorded
    case Some(dd) => recorded.(handler := dd.handler, package := Some(WithInclude(rec.package)))
  }

  /** The handler records the functions refer to. */
  function Handlers(funcs: seq<FunctionInfo>): set<HandlerSpec>
  {
    set f | f in funcs :: f.handler
  }

  /** No two functions share a handler record. */
  predicate DistinctHandlers(funcs: seq<FunctionInfo>)
  {
    forall j, k :: 0 <= j < k < |funcs| ==> funcs[j].handler != funcs[k].handler
  }

  /** The current records of the functions' handler records. */
  function Snapshot(funcs: seq<FunctionInfo>): (s: map<HandlerSpec, HandlerRecord>)
    reads Handlers(funcs)
    ensures s.Keys == Handlers(funcs)
  {
    map h | h in Handlers(funcs) :: h.Record()
  }

  /** The records after the functions are redirected one after the other, in
      list order; a record shared by several functions is redirected once per
      occurrence, the last one winning. */
  function Batch(store: map<HandlerSpec, HandlerRecord>, funcs: seq<FunctionInfo>, addLayers: bool)
    : (r: map<HandlerSpec, HandlerRecord>)
    requires Handlers(funcs) <= store.Keys
    ensures r.Keys == store.Keys
    decreases |funcs|
  {
    if funcs == [] then store
    else
      var init := funcs[..|funcs| - 1];
      var f := funcs[|funcs| - 1];
      assert Handlers(init) <= Handlers(funcs) by {
        forall g | g in init ensures g in funcs { }
      }
      var s := Batch(store, init, addLayers);
      s[f.handler := Redirect(s[f.handler], f.runtime, addLayers)]
  }

  /** Records the original handler in the environment, creating the environment when absent. */
  method SetEnvDatadogHandler(func: FunctionInfo)
    modifies func.handler
    ensures func.handler.Record() == old(func.handler.Record()).(
      environment := Some(WithOriginalHandler(old(func.handler.environment), old(func.handler.handler))))
  {
    var originalHandler := func.handler.handler;
    var environment := func.handler.environment.GetOr(map[]);
    environment := environment[DatadogHandlerEnvVar := originalHandler];
    func.handler.environment := Some(environment);
  }

  /** Redirects one function: records its original handler, then, when its
      runtime has a Datadog entry point, switches to that entry point and makes
      sure its packaging section and include list exist. */
  method RedirectHandler(func: FunctionInfo, addLayers: bool)
    modifies func.handler
    ensures func.handler.Record() == Redirect(old(func.handler.Record()), func.runtime, addLayers)
  {
    SetEnvDatadogHandler(func);
    var handlerInfo := GetDDHandler(func.runtime, addLayers);
    if handlerInfo.None? {
      return;
    }
    func.handler.handler := handlerInfo.value.handler;
    if func.handler.package.None? {
      func.handler.package := Some(Package(Some([]), Some([])));
    }
    if func.handler.package.value.includes.None? {
      func.handler.package := Some(func.handler.package.value.(includes := Some([])));
    }
  }

  /** Redirects every function's handler, in list order. */
  method RedirectHandlers(funcs: seq<FunctionInfo>, addLayers: bool)
    modifies Handlers(funcs)
    ensures forall h :: h in Handlers(funcs) ==> h.Record() == Batch(old(Snapshot(funcs)), funcs, addLayers)[h]
    ensures DistinctHandlers(funcs) ==>
      forall i :: 0 <= i < |funcs| ==>
        funcs[i].handler.Record() == Redirect(old(funcs[i].handler.Record()), funcs[i].runtime, addLayers)
  {
    ghost var store := Snapshot(funcs);
    var i := 0;
    while i < |funcs|
      invariant 0 <= i <= |funcs|
      invariant Handlers(funcs[..i]) <= store.Keys
      invariant forall h :: h in Handlers(funcs) ==> h.Record() == Batch(store, funcs[..i], addLayers)[h]
    {
      var func := funcs[i];
      assert func in funcs;
      ghost var before := Batch(store, funcs[..i], addLayers);
      RedirectHandler(func, addLayers);
      assert funcs[..i + 1][..i] == funcs[..i];
      assert Handlers(funcs[..i + 1]) <= store.Keys by {
        forall g | g in funcs[..i + 1] ensures g in funcs { }
      }
      assert Batch(store, funcs[..i + 1], addLayers)
          == before[func.handler := Redirect(before[func.handler], func.runtime, addLayers)];
      i := i + 1;
    }
    assert funcs[..i] == funcs;
    if DistinctHandlers(funcs) {
      forall j | 0 <= j < |funcs|
        ensures funcs[j].handler.Record() == Redirect(old(funcs[j].handler.Record()), funcs[j].runtime, addLayers)
      {
        assert funcs[j] in funcs;
        BatchOfDistinct(store, funcs, addLayers, j);
      }
    }
  }

  /** A record no function refers to is left alone by the batch. */
  lemma {:induction false} BatchUntouched(store: map<HandlerSpec, HandlerRecord>, funcs: seq<FunctionInfo>,
                                           addLayers: bool, h: HandlerSpec)
    requires Handlers(funcs) <= store.Keys
    requires h in store && h !in Handlers(funcs)
    ensures Batch(store, funcs, addLayers)[h] == store[h]
    decreases |funcs|
  {
    if funcs != [] {
      var init := funcs[..|funcs| - 1];
      assert funcs[|funcs| - 1] in funcs;
      assert Handlers(init) <= Handlers(funcs) by {
        forall g | g in init ensures g in funcs { }
      }
      BatchUntouched(store, init, addLayers, h);
    }
  }

  /** With distinct handler records, each function's record ends up redirected
      exactly once, from the value it had before the batch. */
  lemma {:induction false} BatchOfDistinct(store: map<HandlerSpec, HandlerRecord>, funcs: seq<FunctionInfo>,
                                           addLayers: bool, i: nat)
    requires Handlers(funcs) <= store.Keys
    requires DistinctHandlers(funcs)
    requires i < |funcs|
    ensures funcs[i].handler in store
    ensures Batch(store, funcs, addLayers)[funcs[i].handler]
         == Redirect(store[funcs[i].handler], funcs[i].runtime, addLayers)
    decreases |funcs|
  {
    assert funcs[i] in funcs;
    var n := |funcs| - 1;
    var init := funcs[..n];
    assert Handlers(init) <= Handlers(funcs) by {
      forall g | g in init ensures g in funcs { }
    }
    if i < n {
      assert init[i] == funcs[i];
      BatchOfDistinct(store, init, addLayers, i);
    } else {
      assert funcs[i].handler !in Handlers(init) by {
        forall g | g in init ensures g.handler != funcs[i].handler {
          var k :| 0 <= k < n && init[k] == g;
        }
      }
      BatchUntouched(store, init, addLayers, funcs[i].handler);
    }
  }
}

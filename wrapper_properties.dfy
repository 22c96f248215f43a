/**
 * What handler redirection promises about each function's handler record and
 * about a batch of functions.
 */
module WrapperProperties {
  import opened Wrappers
  import opened Wrapper

  predicate Supported(runtime: Option<RuntimeType>)
  {
    runtime == Some(Node) || runtime == Some(Python)
  }

  /** Whatever the runtime, the environment afterwards maps DD_LAMBDA_HANDLER to
      the handler the function had on entry, keeps every other key, and is
      exactly that one entry when it was absent. */
  lemma RedirectRecordsOriginal(rec: HandlerRecord, runtime: Option<RuntimeType>, addLayers: bool)
    ensures var env := Redirect(rec, runtime, addLayers).environment;
      && env.Some?
      && DatadogHandlerEnvVar in env.value
      && env.value[DatadogHandlerEnvVar] == rec.handler
      && (rec.environment.None? ==> env.value == map[DatadogHandlerEnvVar := rec.handler])
      && (rec.environment.Some? ==>
            env.value.Keys == rec.environment.value.Keys + {DatadogHandlerEnvVar} &&
            forall k :: k in rec.environment.value && k != DatadogHandlerEnvVar ==>
              env.value[k] == rec.environment.value[k])
  {
  }

  /** A Node function gets the layer-mounted JavaScript entry point when layers
      are added and the bare one otherwise. */
  lemma RedirectNode(rec: HandlerRecord, addLayers: bool)
    ensures Redirect(rec, Some(Node), addLayers).handler
         == if addLayers then JsHandlerLayerPrefix + JsHandler else JsHandler
    ensures addLayers <==> JsHandlerLayerPrefix <= Redirect(rec, Some(Node), addLayers).handler
  {
  }

  /** A Python function gets the Python entry point, whatever addLayers is. */
  lemma RedirectPython(rec: HandlerRecord)
    ensures Redirect(rec, Some(Python), true).handler == PythonHandler
    ensures Redirect(rec, Some(Python), true) == Redirect(rec, Some(Python), false)
  {
  }

  /** A function whose runtime is undefined or unsupported keeps its handler and
      its packaging section; only its environment changes. */
  lemma RedirectUnsupported(rec: HandlerRecord, runtime: Option<RuntimeType>, addLayers: bool)
    ensures !Supported(runtime) <==> GetDDHandler(runtime, addLayers).None?
    ensures !Supported(runtime) ==>
      Redirect(rec, runtime, addLayers)
        == rec.(environment := Some(WithOriginalHandler(rec.environment, rec.handler)))
  {
  }

  /** A redirected function's handler is the entry point of its runtime, which
      differs from the original unless the original already was that entry point. */
  lemma RedirectSupported(rec: HandlerRecord, runtime: Option<RuntimeType>, addLayers: bool)
    requires Supported(runtime)
    ensures Redirect(rec, runtime, addLayers).handler == GetDDHandler(runtime, addLayers).value.handler
    ensures rec.handler != GetDDHandler(runtime, addLayers).value.handler ==>
      Redirect(rec, runtime, addLayers).handler != rec.handler
  {
  }

  /** For a redirected function the packaging section and its include list are
      defined: a missing section becomes {include: [], exclude: []}; an existing
      one keeps its exclude list and its include list, a missing include list
      becoming []. */
  lemma RedirectPackage(rec: HandlerRecord, runtime: Option<RuntimeType>, addLayers: bool)
    requires Supported(runtime)
    ensures var p := Redirect(rec, runtime, addLayers).package;
      && p.Some? && p.value.includes.Some?
      && (rec.package.None? ==> p.value == Package(Some([]), Some([])))
      && (rec.package.Some? ==> p.value.excludes == rec.package.value.excludes)
      && (rec.package.Some? && rec.package.value.includes.Some? ==> p.value.includes == rec.package.value.includes)
      && (rec.package.Some? && rec.package.value.includes.None? ==> p.value.includes == Some([]))
  {
  }

  /** A packaging section with neither list gains an empty include list and no
      exclude list: the handler record of the Node test with layers off. */
  lemma RedirectEmptyPackageNode()
    ensures Redirect(HandlerRecord("mydir/func.myhandler", None, Some(Package(None, None))), Some(Node), false)
         == HandlerRecord(JsHandler, Some(map[DatadogHandlerEnvVar := "mydir/func.myhandler"]),
                          Some(Package(Some([]), None)))
  {
  }

  /** The two Datadog entry points cannot be confused: equal handlers mean equal
      runtimes, and for Node also equal addLayers. */
  lemma DDHandlerIdentifiesRuntime(r1: Option<RuntimeType>, l1: bool, r2: Option<RuntimeType>, l2: bool)
    requires GetDDHandler(r1, l1).Some? && GetDDHandler(r2, l2).Some?
    requires GetDDHandler(r1, l1).value.handler == GetDDHandler(r2, l2).value.handler
    ensures r1 == r2
    ensures r1 == Some(Node) ==> l1 == l2
  {
  }

  /** Redirecting a second time records the already-redirected handler as the
      "original", so redirection is not idempotent. */
  lemma RedirectTwiceRecapturesTarget(rec: HandlerRecord, runtime: Option<RuntimeType>, addLayers: bool)
    requires Supported(runtime)
    ensures var twice := Redirect(Redirect(rec, runtime, addLayers), runtime, addLayers);
      twice.environment.value[DatadogHandlerEnvVar] == GetDDHandler(runtime, addLayers).value.handler
    ensures rec.handler != GetDDHandler(runtime, addLayers).value.handler ==>
      Redirect(Redirect(rec, runtime, addLayers), runtime, addLayers) != Redirect(rec, runtime, addLayers)
  {
  }

  /** A batch is the two halves run one after the other: functions are
      processed in list order. */
  lemma {:induction false} BatchConcat(store: map<HandlerSpec, HandlerRecord>, a: seq<FunctionInfo>,
                                       b: seq<FunctionInfo>, addLayers: bool)
    requires Handlers(a + b) <= store.Keys
    ensures Handlers(a) <= store.Keys && Handlers(b) <= store.Keys
    ensures Batch(store, a + b, addLayers) == Batch(Batch(store, a, addLayers), b, addLayers)
    decreases |b|
  {
    assert Handlers(a) <= store.Keys by {
      forall g | g in a ensures g in a + b { }
    }
    assert Handlers(b) <= store.Keys by {
      forall g | g in b ensures g in a + b { }
    }
    if b == [] {
      assert a + b == a;
    } else {
      var n := |b| - 1;
      assert (a + b)[..|a + b| - 1] == a + b[..n];
      assert Handlers(a + b[..n]) <= store.Keys by {
        forall g | g in a + b[..n] ensures g in a + b { }
      }
      BatchConcat(store, a, b[..n], addLayers);
    }
  }

  /** Two Python functions with their own records end up with the same handler
      and each with its own original recorded. */
  lemma PythonBatchSharesHandler(store: map<HandlerSpec, HandlerRecord>, f1: FunctionInfo, f2: FunctionInfo,
                                 addLayers: bool)
    requires f1.runtime == Some(Python) && f2.runtime == Some(Python)
    requires f1.handler != f2.handler
    requires f1.handler in store && f2.handler in store
    ensures var s := Batch(store, [f1, f2], addLayers);
      && s[f1.handler].handler == PythonHandler
      && s[f2.handler].handler == PythonHandler
      && s[f1.handler].environment.Some? && s[f2.handler].environment.Some?
      && DatadogHandlerEnvVar in s[f1.handler].environment.value
      && s[f1.handler].environment.value[DatadogHandlerEnvVar] == store[f1.handler].handler
      && DatadogHandlerEnvVar in s[f2.handler].environment.value
      && s[f2.handler].environment.value[DatadogHandlerEnvVar] == store[f2.handler].handler
  {
    var funcs := [f1, f2];
    assert Handlers(funcs) <= store.Keys by {
      forall g | g in funcs ensures g.handler in store { }
    }
    BatchOfDistinct(store, funcs, addLayers, 0);
    BatchOfDistinct(store, funcs, addLayers, 1);
    RedirectRecordsOriginal(store[f1.handler], f1.runtime, addLayers);
    RedirectRecordsOriginal(store[f2.handler], f2.runtime, addLayers);
  }

  /** Nothing guards against two functions sharing one handler record: the
      second occurrence records the already-redirected handler as the original. */
  lemma SharedRecordRecapturesTarget(store: map<HandlerSpec, HandlerRecord>, f1: FunctionInfo, f2: FunctionInfo,
                                     addLayers: bool)
    requires f1.handler == f2.handler && f1.handler in store
    requires Supported(f1.runtime)
    ensures Batch(store, [f1, f2], addLayers)[f1.handler]
         == Redirect(Redirect(store[f1.handler], f1.runtime, addLayers), f2.runtime, addLayers)
    ensures Batch(store, [f1, f2], addLayers)[f1.handler].environment.value[DatadogHandlerEnvVar]
         == GetDDHandler(f1.runtime, addLayers).value.handler
  {
    var funcs := [f1, f2];
    assert Handlers(funcs) <= store.Keys by {
      forall g | g in funcs ensures g.handler in store { }
    }
    var h := f1.handler;
    assert funcs[..1] == [f1] && [f1][..0] == [];
    assert Handlers([f1]) <= store.Keys;
    assert Batch(store, [f1][..0], addLayers) == store;
    var once := Batch(store, [f1], addLayers);
    assert once == store[h := Redirect(store[h], f1.runtime, addLayers)];
    assert Batch(store, funcs, addLayers) == once[h := Redirect(once[h], f2.runtime, addLayers)];
    RedirectSupported(store[f1.handler], f1.runtime, addLayers);
    RedirectRecordsOriginal(Redirect(store[f1.handler], f1.runtime, addLayers), f2.runtime, addLayers);
  }

  /** A Node function whose packaging section is empty, redirected without
      layers: the whole handler record afterwards. */
  method RedirectNodeWithoutLayers() returns (after: HandlerRecord)
    ensures after == HandlerRecord(JsHandler, Some(map[DatadogHandlerEnvVar := "mydir/func.myhandler"]),
                                   Some(Package(Some([]), None)))
  {
    var handler := new HandlerSpec("mydir/func.myhandler", None, Some(Package(None, None)));
    var funcs := [FunctionInfo("my-lambda", Some(Node), handler)];
    RedirectHandlers(funcs, false);
    assert funcs[0].handler == handler;
    RedirectEmptyPackageNode();
    after := handler.Record();
  }

  /** Two Python functions redirected in one batch with layers: both handlers
      become the Python entry point. */
  method RedirectTwoPythonFunctions() returns (first: HandlerRecord, second: HandlerRecord)
    ensures first.handler == PythonHandler && second.handler == PythonHandler
    ensures first.environment == Some(map[DatadogHandlerEnvVar := "mydir/func.myhandler"])
    ensures second.environment == Some(map[DatadogHandlerEnvVar := "mydir/func.secondhandler"])
  {
    var handler1 := new HandlerSpec("mydir/func.myhandler", None, Some(Package(None, None)));
    var handler2 := new HandlerSpec("mydir/func.secondhandler", None, Some(Package(None, None)));
    var funcs := [FunctionInfo("my-lambda", Some(Python), handler1),
                  FunctionInfo("second-lambda", Some(Python), handler2)];
    ghost var before1, before2 := handler1.Record(), handler2.Record();
    assert DistinctHandlers(funcs);
    RedirectHandlers(funcs, true);
    assert funcs[0].handler == handler1 && funcs[1].handler == handler2;
    RedirectRecordsOriginal(before1, Some(Python), true);
    RedirectRecordsOriginal(before2, Some(Python), true);
    first, second := handler1.Record(), handler2.Record();
  }
}

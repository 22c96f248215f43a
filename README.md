# Datadog handler redirection, in Dafny

This project models the handler-redirection step of the Datadog serverless
plugin (`src/wrapper.ts`). During packaging, every function of a serverless
deployment has its handler replaced by the Datadog instrumentation entry point
of its runtime:

- Node gets `/opt/nodejs/node_modules/datadog-lambda-js/handler.handler` when
  layers are added and `node_modules/datadog-lambda-js/handler.handler` when
  they are not;
- Python gets `datadog_lambda.handler.handler`;
- any other runtime, or an undefined one, keeps its handler.

Before the runtime is looked at, the original handler is recorded in the
function's environment under `DD_LAMBDA_HANDLER`, so every function gets that
variable. A redirected function also gets a packaging section and an include
list when either is missing.

Files:

- `wrappers.dfy`: module `Wrappers`, the `Option` type used for the optional
  parts of a handler record.
- `wrapper.dfy`: module `Wrapper`. It holds:
  - the constants;
  - `HandlerSpec`, the handler record, a class whose fields `handler`,
    `environment` and `package` are updated in place;
  - `FunctionInfo`, an immutable value that refers to a `HandlerSpec`;
  - the pure `GetDDHandler`;
  - the specification functions `WithOriginalHandler`, `WithInclude`,
    `Redirect` (one function) and `Batch` (a list of functions, in order,
    over a store of records keyed by object);
  - the imperative `SetEnvDatadogHandler`, `RedirectHandler` (the body of
    the `forEach` callback) and `RedirectHandlers`, each proved against
    those functions.
- `wrapper_properties.dfy`: module `WrapperProperties`, the lemmas about
  `Redirect` and `Batch`, plus two client methods that run
  `RedirectHandlers` on the records of the source's tests.

`RedirectHandlers` does not require the functions to refer to distinct handler
records, because the source does not guard against sharing. Its postcondition
ties every record to `Batch`, where a shared record is redirected once per
occurrence and the last occurrence wins. When the records are distinct, a second
postcondition states the per-function result: each record is redirected once,
starting from the value it had on entry.

TypeScript's `package.include` and `package.exclude` are called `includes` and
`excludes` here because `include` is a reserved word in Dafny. For the same
reason the function's `type` field is called `runtime`.

## Model

| member | source | states |
|---|---|---|
| `Wrapper.GetDDHandler` | src/wrapper.ts:44-56 | No entry point exactly when the runtime is undefined or neither Node nor Python. For Node, the handler and handler file start with the layer prefix iff layers are added, and the rest is the bare JavaScript path. For Python, it is the fixed Python handler and file. |
| `Wrapper.WithOriginalHandler` | src/wrapper.ts:58-63 | The environment afterwards maps `DD_LAMBDA_HANDLER` to the original handler and keeps every other key and value. When the environment was absent, it is exactly that one entry. |
| `Wrapper.WithInclude` | src/wrapper.ts:32-40 | The include list is always defined afterwards. A missing package becomes `{include: [], exclude: []}`. An existing package keeps its exclude list and its include list, and a missing include list becomes `[]`. |
| `Wrapper.Batch` | src/wrapper.ts:22-42 | Processing the functions in list order keeps the set of records in the store. |
| `Wrapper.Redirect` | src/wrapper.ts:23-41 | The reference definition of one function's step. Its contract: `DD_LAMBDA_HANDLER` holds the handler on entry, whatever the runtime. With no entry point, handler and package are unchanged. Otherwise the handler is the entry point, and package and include are defined. RedirectRecordsOriginal, RedirectNode, RedirectPython, RedirectUnsupported and RedirectPackage give the rest of its meaning. |
| `Wrapper.SetEnvDatadogHandler` | src/wrapper.ts:58-63 | Only the environment changes, to the original environment with the handler recorded in it. |
| `Wrapper.RedirectHandler` | src/wrapper.ts:23-41 | The record afterwards is `Redirect` of the record before. |
| `Wrapper.RedirectHandlers` | src/wrapper.ts:22-42 | Every record afterwards is what `Batch` gives from the records on entry. Only the functions' handler records are modified. With distinct records, each function's record is `Redirect` of its value on entry. |
| `Wrapper.BatchUntouched` | src/wrapper.ts:22-42 | A record that no function in the list refers to is unchanged by the batch. |
| `Wrapper.BatchOfDistinct` | src/wrapper.ts:23-41 | With pairwise-distinct records, the batch leaves each function's record redirected exactly once, from its value on entry. |
| `WrapperProperties.RedirectRecordsOriginal` | src/wrapper.ts:58-63 | For every runtime, including undefined and unsupported ones, the environment maps `DD_LAMBDA_HANDLER` to the handler on entry. Other keys keep their values, and an absent environment becomes exactly that one entry. |
| `WrapperProperties.RedirectNode` | src/wrapper.ts:49-52 | A Node function's handler becomes the prefixed JavaScript entry point with layers and the bare one without. It starts with `/opt/nodejs/` iff layers are added. |
| `WrapperProperties.RedirectPython` | src/wrapper.ts:53-54 | A Python function's handler becomes the Python entry point, and the whole result does not depend on `addLayers`. |
| `WrapperProperties.RedirectUnsupported` | src/wrapper.ts:25-28 | The runtime is unsupported iff there is no entry point. In that case handler and package are unchanged and only the environment changes. |
| `WrapperProperties.RedirectSupported` | src/wrapper.ts:29-30 | A supported function's handler becomes its runtime's entry point. It differs from the original unless the original already was that entry point. |
| `WrapperProperties.RedirectPackage` | src/wrapper.ts:32-40 | For a redirected function, package and include are defined afterwards. A missing package becomes `{include: [], exclude: []}`. An existing one keeps its exclude and include lists, and a missing include becomes `[]`. |
| `WrapperProperties.RedirectEmptyPackageNode` | src/wrapper.spec.ts:94-118 | The Node record with package `{}`, redirected without layers, equals the test's expected record: package `{include: []}` with no exclude added. |
| `WrapperProperties.DDHandlerIdentifiesRuntime` | src/wrapper.ts:12-15 | Equal Datadog handlers come from equal runtimes, and for Node also from equal `addLayers`. |
| `WrapperProperties.RedirectTwiceRecapturesTarget` | src/wrapper.ts:58-61 | Redirecting twice records the already-redirected handler as the original, so the step is not idempotent whenever the original differs from the target. |
| `WrapperProperties.BatchConcat` | src/wrapper.ts:23-41 | A batch over `a + b` is the batch over `a` followed by the batch over `b`: functions are processed in list order. |
| `WrapperProperties.PythonBatchSharesHandler` | src/wrapper.spec.ts:61-92 | Two Python functions with their own records end up with the same handler, and each environment records that function's own original. |
| `WrapperProperties.SharedRecordRecapturesTarget` | src/wrapper.ts:22-42 | When two functions share one record, the record is redirected twice, and `DD_LAMBDA_HANDLER` ends up holding the redirected handler rather than the user's. |
| `WrapperProperties.RedirectNodeWithoutLayers` | src/wrapper.spec.ts:94-118 | Running `RedirectHandlers` on the test's Node function without layers yields the expected record. |
| `WrapperProperties.RedirectTwoPythonFunctions` | src/wrapper.spec.ts:61-92 | Running `RedirectHandlers` on the test's two Python functions yields the Python handler for both, each with its own recorded original. |

## Left out

- The function's name and runtime are never modified. `FunctionInfo` is an immutable value, so this holds by construction rather than by a contract.
- Fields of the handler record that redirection neither reads nor writes (`name`, `events`, ...) are not modelled. Neither are fields of the package other than include and exclude.
- The environment map and the package section are values here, while in the source they are objects. Two handler records sharing one environment object or one package object, so that an update through one record is seen by the other, is not modelled. Two functions sharing one handler record is modelled.
- For the environment, TypeScript's `null` and `undefined` are both the `None` of `Option`, as `??` treats them alike (src/wrapper.ts:60).
- A `null` package or include list is not represented. The source tests these two with `=== undefined` (src/wrapper.ts:32, 38), so `null` differs from `undefined` there, while the model's `None` means `undefined` only. A `null` package gets past line 32, and reading its `include` at line 38 throws a TypeError that ends the `forEach`, so the remaining functions are not redirected. A `null` include list is left as `null`.
- Environment values are strings here. In the source they can be any value, for example CloudFormation `{Ref: ...}` objects, and the step passes them through untouched.
- The runtime enumeration of `./layer` is collapsed to `Node | Python | Other`. `./layer` is not part of this model.
- `handlerFile` is computed but never stored by the source. It is modelled only as the second component of `GetDDHandler`'s result.
- Tag merging, log subscription filter derivation, layer ARN injection and X-Ray tracing live in `index.ts` and `layer.ts`, which are not part of this model.
- The plugin lifecycle, the `serverless` host objects, logging and AWS provider requests are I/O around the core and are not modelled.

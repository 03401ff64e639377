# Function controller of the Kyma serverless runtime, modelled in Dafny

The runtime operator watches `Function` resources. A `Function` carries JavaScript source,
its npm dependencies and a runtime name. For each `Function` it keeps two derived objects
in line with the spec:

- a ConfigMap holding the handler, the source and `package.json`;
- a Knative serving `Service`, whose build step runs Kaniko to build the function image from
  a Dockerfile ConfigMap and push it to the registry, and whose revision runs that image.

The project models two pieces of that operator.

- **The desired-Service builder** (`GetServiceSpec` / `getBuildContainer`) is pure. It is
  modelled as functions in `ServingUtils` (serving_utils.dfy). Their contracts state the
  exact shape of the spec and the consistency between its parts:
  - the Kaniko `--destination=` argument names the run image;
  - every build mount refers to a declared build volume;
  - the run environment is a constant list.
- **One reconciliation pass** (`ReconcileFunction.Reconcile`) is modelled in
  `FunctionController` (function_controller.dfy).
  - The cluster is replaced by an in-memory store (`Store`, store.dfy). It is a map from
    (kind, namespace, name) to objects, with injectable failures for Get, Create, Update
    and `SetControllerReference`.
  - The class `ReconcileFunction` holds that store as a mutable field. Its `Reconcile`
    method goes through the steps of the Go code in order, with the same early returns.
  - It is proved equal to the specification function `Pass`. That function is built from
    `SyncConfigMap`, `SyncService` and `ApplyFunction`.
  - The lemmas in `FunctionControllerLemmas` (function_controller_lemmas.dfy) state what a
    pass does to the store:
    - error propagation: every error of a read, a write or an owner reference is returned, and only a missing Function counts as success;
    - the frame (only the derived ConfigMap and Service can change);
    - convergence after success, and idempotence of a second pass;
    - the Service step never updating an existing Service;
    - the two passes a new Function needs (see Findings).

Supporting modules:

| module | what it holds |
|---|---|
| `Wrappers` | `Option`, `Result` |
| `CoreTypes` | the subset of Kubernetes core and meta types in use: ObjectMeta, owner references, containers, volumes, ConfigMaps |
| `FunctionTypes` | the `Function` resource |
| `ServingTypes` | the Knative Service subset |
| `RuntimeConfig` | `RuntimeInfo` and its Dockerfile lookup |
| `Strings` | `strings.Trim(s, " ")` |

Inputs the Go code takes from its surroundings are parameters of `Reconcile`:

- the two environment variables `CONTROLLER_CONFIGMAP` and `CONTROLLER_CONFIGMAP_NS`;
- the fresh UUID;
- the parser that turns the operator ConfigMap into a `RuntimeInfo`.

The Go code and its own test disagree on one point. The test at
pkg/controller/function/function_controller_test.go:220-223 expects the Service image to
change after the Function is updated. The code never writes an existing Service: line 210
compares the desired spec with itself. The model follows the code
(`FunctionControllerLemmas.ExistingServiceUntouched`).

## Model

| member | source | states |
|---|---|---|
| ServingUtils.GetServiceSpec | pkg/utils/serving_utils.go:13-96 | The spec has a build with the runtime's service account. It has exactly one step, the build container. It has exactly two ConfigMap volumes in order, with mode 420: `dockerfile-vol` names the Dockerfile ConfigMap of the Function's runtime and `func-vol` names the Function. Every mount of the step refers to one of those volumes. The run container's image is `imageName`, which is also the image the step pushes to. The run environment is the fixed seven-entry list. |
| ServingUtils.GetBuildContainer | pkg/utils/serving_utils.go:98-117 | The step is named `build-and-push` and uses the Kaniko executor image. It has exactly two arguments, the first being `--dockerfile=/workspace/Dockerfile`, and its push destination is `imageName`. Its mounts are `dockerfile-vol` at `/workspace` and `func-vol` at `/src`. |
| ServingUtils.DestinationOf | pkg/utils/serving_utils.go:99-103 | Reads the push destination back from Kaniko arguments. A result means `--destination=` plus that image is one of the arguments. No result means no argument carries the flag. |
| ServingUtils.SpecDependsOnlyOnNameAndRuntime | pkg/utils/serving_utils.go:13-96 | The spec depends on the Function only through its name and its runtime. Timeout, size, env and deps play no part. |
| ServingUtils.RunEnvIsConstant | pkg/utils/serving_utils.go:42-71 | The run environment is the same whatever the image, the Function and the runtime configuration. |
| ServingUtils.SpecDeterminesImage | pkg/utils/serving_utils.go:88-103 | Equal specs for the same Function mean equal image names, so the image can be recovered from the spec. |
| ServingUtils.ContainersFullyDetermined | pkg/utils/serving_utils.go:87-90 | Nothing else is set. The run container is exactly the unnamed container with image `imageName`, no arguments, no mounts and the fixed environment. The build step has no environment, and its arguments are exactly the Dockerfile flag and `--destination=` followed by `imageName`. |
| RuntimeConfig.RuntimeInfo.DockerFileConfigMapName | pkg/utils/serving_utils.go:23 | For a registered runtime, the result is the Dockerfile ConfigMap of the first entry with that ID. For an unregistered one, the result is the empty name and the lookup does not fail. |
| RuntimeConfig.Lookup | pkg/utils/controller_utils_test.go:49-52 | The first-match lookup over the runtime list, with the same two cases. |
| Strings.TrimSpaces | pkg/controller/function/function_controller.go:140 | The result is a contiguous part of the input, and everything cut off before and after it is a space. It neither starts nor ends with a space. It is empty exactly when the input is all spaces. So tabs and newlines are kept. |
| FunctionController.DesiredConfigMapData | pkg/controller/function/function_controller.go:137-144 | The ConfigMap data has exactly three keys: `handler` is `handler.main`, `handler.js` is the source, and `package.json` is the deps. When the deps are empty or all spaces, `package.json` is `{}`. |
| FunctionController.SetControllerReference | pkg/controller/function/function_controller.go:155-157 | On success, the metadata gains the Function as controlling owner and is otherwise unchanged. It fails exactly when a failure is injected for that kind. |
| FunctionController.ReconcileFunction.Get | pkg/controller/function/function_controller.go:113 | The client read: an injected failure, else the stored object, else NotFound. |
| FunctionController.ReconcileFunction.Create | pkg/controller/function/function_controller.go:163 | The client create, mirroring `Store.Create`: a nameless object is refused, an injected failure is returned, a present key gives AlreadyExists, else the object is inserted. The store stays well formed. |
| FunctionController.ReconcileFunction.Update | pkg/controller/function/function_controller.go:174 | The client update, mirroring `Store.Update`: a nameless object is refused, an injected failure is returned, an absent key gives NotFound, else the object is replaced. The store stays well formed. |
| FunctionController.ReconcileFunction.Reconcile | pkg/controller/function/function_controller.go:100-221 | The returned error and the new store are exactly those of `Pass` on the old store, with the first eight characters of the UUID as tag. The failures stay unchanged and the store stays well formed. |
| FunctionController.ReconcileFunction.ManageConfigMap | pkg/controller/function/function_controller.go:159-178 | The step-by-step ConfigMap sync ends in the store and error of `SyncConfigMap`. |
| FunctionController.ReconcileFunction.ManageService | pkg/controller/function/function_controller.go:198-219 | The step-by-step Service sync ends in the store and error of `SyncService`. The update guarded by the self-comparison is unreachable. |
| FunctionControllerLemmas.ConfigKeySelection | pkg/controller/function/function_controller.go:102-111 | The operator config is `fn-config` in `default`. A non-empty `CONTROLLER_CONFIGMAP` replaces the name and a non-empty `CONTROLLER_CONFIGMAP_NS` replaces the namespace, each independently of the other. |
| FunctionControllerLemmas.ConfigReadFailureAborts | pkg/controller/function/function_controller.go:112-118 | A failed config read ends the pass with that error, and nothing is written. |
| FunctionControllerLemmas.MissingConfigIsReported | pkg/controller/function/function_controller_test.go:306-315 | A missing config gives NotFound for the selected key and no write. With `CONTROLLER_CONFIGMAP=bla-config` the error names `bla-config`. With `CONTROLLER_CONFIGMAP_NS=stage` it names `fn-config` in `stage`. |
| FunctionControllerLemmas.RuntimeInfoFailureAborts | pkg/controller/function/function_controller.go:120-124 | A config the parser rejects ends the pass with the parser's error, and nothing is written. |
| FunctionControllerLemmas.FunctionReadFailureWritesNothing | pkg/controller/function/function_controller.go:125-136 | If the Function cannot be read, nothing is written. Once the config has been read, NotFound is a success and any other error is returned unchanged. |
| FunctionControllerLemmas.MissingFunctionIsNoOp | pkg/controller/function/function_controller.go:128-133 | A pass for a deleted Function succeeds and leaves the store as it was. |
| FunctionControllerLemmas.SyncConfigMapFrame | pkg/controller/function/function_controller.go:159-178 | The ConfigMap step changes nothing but the ConfigMap named like the desired one, and deletes nothing. |
| FunctionControllerLemmas.SyncServiceFrame | pkg/controller/function/function_controller.go:198-219 | The Service step changes nothing but the Service named like the desired one, and deletes nothing. |
| FunctionControllerLemmas.PassWritesOnlyDerivedObjects | pkg/controller/function/function_controller.go:100-221 | A pass writes at most the ConfigMap and the Service named like the request. Everything else is kept and nothing is deleted. |
| FunctionControllerLemmas.ApplyWritesOnlyDerivedObjects | pkg/controller/function/function_controller.go:146-219 | Once the Function has been read, the remaining steps write at most the ConfigMap and the Service named like the Function, and delete nothing. |
| FunctionControllerLemmas.FunctionNeverWritten | pkg/controller/function/function_controller.go:126-136 | No pass creates, changes or deletes a Function object. |
| FunctionControllerLemmas.ConfigMapUpdateReplacesOnlyData | pkg/controller/function/function_controller.go:171-178 | A present ConfigMap with equal data is not written. One whose data differs gets the desired data, keeps its stored metadata, and is updated. |
| FunctionControllerLemmas.SyncConfigMapIdempotent | pkg/controller/function/function_controller.go:159-178 | After a successful ConfigMap step, the same step again writes nothing and succeeds. |
| FunctionControllerLemmas.FreshConfigMapCreateThenFails | pkg/controller/function/function_controller.go:159-178 | As written, an absent ConfigMap is created, then the empty object read before gets the data and is updated. That update is refused for lack of a name. The step ends with the ConfigMap created and a NameRequired error. |
| FunctionControllerLemmas.FreshConfigMapCreatedAsIntended | pkg/controller/function/function_controller.go:159-166 | The corrected step creates an absent ConfigMap and succeeds. |
| FunctionControllerLemmas.SyncConfigMapIntendedConverges | pkg/controller/function/function_controller.go:159-178 | Without failures at its key, the corrected step succeeds in one call. The ConfigMap then holds the desired data, keeps the metadata it had, and a repeat writes nothing. |
| FunctionControllerLemmas.ExistingServiceUntouched | pkg/controller/function/function_controller.go:198-219 | A Service that exists before a pass is exactly the same after it, whatever its spec and whatever the desired one. |
| FunctionControllerLemmas.SyncServiceKeepsExisting | pkg/controller/function/function_controller.go:210-217 | The Service step leaves the store unchanged when the Service exists. |
| FunctionControllerLemmas.ImageTagsDistinguishSpecs | pkg/controller/function/function_controller.go:182-191 | Different tags give different image names and different desired Services. A desired-versus-stored comparison would therefore differ on every pass. |
| FunctionControllerLemmas.ApplyStopsAtFirstError | pkg/controller/function/function_controller.go:155-196 | Once the Function has been read, the steps stop at the first error and return it. An owner-reference failure for the ConfigMap is returned with no write. An error of the ConfigMap step is returned with that step's store. An owner-reference failure for the Service is returned after the ConfigMap step, with nothing more written. |
| FunctionControllerLemmas.SyncConfigMapErrors | pkg/controller/function/function_controller.go:159-178 | The ConfigMap step returns, with no write, a read error other than NotFound, a create error for an absent ConfigMap, and an update error for a present ConfigMap whose data differs. |
| FunctionControllerLemmas.SyncServiceErrors | pkg/controller/function/function_controller.go:198-209 | The Service step returns, with no write, a read error other than NotFound and a create error for an absent Service. |
| FunctionControllerLemmas.ApplySucceededConfigMap | pkg/controller/function/function_controller.go:146-178 | Once the Function has been read, success implies the ConfigMap existed before the pass and now holds the data derived from the spec. |
| FunctionControllerLemmas.ApplySucceededService | pkg/controller/function/function_controller.go:180-219 | Once the Function has been read, success implies the Service exists. If the pass created it, it is owned by the Function, carries its name, namespace and labels, and runs `<registry>/<namespace>-<name>:<tag>` with the builder's spec. |
| FunctionControllerLemmas.SyncConfigMapSucceeded | pkg/controller/function/function_controller.go:159-178 | As written, the ConfigMap step succeeds only on a ConfigMap that existed, and leaves it holding the desired data. |
| FunctionControllerLemmas.SyncServiceSucceeded | pkg/controller/function/function_controller.go:198-219 | On success the Service step leaves a Service in place. If there was none, it is the desired one. |
| FunctionControllerLemmas.SuccessfulPassConverges | pkg/controller/function/function_controller.go:100-221 | A successful pass over an existing Function read the config and parsed it. Afterwards the Function's ConfigMap mirrors the spec and a Service is in place; a created Service is the owned, freshly tagged one. |
| FunctionControllerLemmas.PassReachesApply | pkg/controller/function/function_controller.go:112-136 | Once the config, the runtime configuration and the Function have been read, the rest of the pass depends only on them. |
| FunctionControllerLemmas.ApplyIdempotent | pkg/controller/function/function_controller.go:146-219 | After the ConfigMap and Service steps have succeeded, repeating them with any new tag writes nothing and succeeds. |
| FunctionControllerLemmas.SecondPassIsNoOp | pkg/controller/function/function_controller.go:100-221 | After a successful pass, a second pass with any new tag writes nothing and succeeds. This requires the Function's ConfigMap not to be the operator config itself, and no injected read failure to pose as NotFound. |
| FunctionControllerLemmas.InputsKept | pkg/controller/function/function_controller.go:113-127 | A store changed only at the derived objects still holds the same operator config and the same Function. |
| FunctionControllerLemmas.OwnedByController | pkg/controller/function/function_controller.go:155-157 | Without injected failures, the derived metadata gets exactly one owner reference: the Function, as controller. |
| FunctionControllerLemmas.ApplyOnMissingConfigMap | pkg/controller/function/function_controller.go:159-178 | Without failures, the steps for a Function whose ConfigMap is missing create the owned ConfigMap and then fail with NameRequired, before the Service step. |
| FunctionControllerLemmas.ApplyOnMissingService | pkg/controller/function/function_controller.go:180-219 | Without failures, the steps for a Function whose ConfigMap is up to date and whose Service is missing create exactly the owned Service and succeed. |
| FunctionControllerLemmas.IntendedStepsOnNewFunction | pkg/controller/function/function_controller.go:146-219 | With the corrected ConfigMap step (`ApplyFunctionIntended`), a new Function gets its owned ConfigMap and its owned, freshly tagged Service in one pass, and the pass succeeds without failures. |
| FunctionControllerLemmas.FirstPassOnNewFunction | pkg/controller/function/function_controller.go:100-178 | As written, the first pass over a new Function adds only its owned ConfigMap and returns NameRequired. |
| FunctionControllerLemmas.PassCreatesMissingService | pkg/controller/function/function_controller.go:100-219 | A pass that finds the ConfigMap up to date and no Service adds exactly the owned, freshly tagged Service and succeeds. |
| FunctionControllerLemmas.NewFunctionTakesTwoPasses | pkg/controller/function/function_controller.go:159-219 | For a new Function without failures, the first pass reports an error and creates no Service. The second pass succeeds and creates it. |

## Left out

- Controller wiring (`Add`, `newReconciler`, `add`, the watches) is manager and informer plumbing with no behaviour to state.
- The API server is an in-memory map.
  - Resource versions, optimistic concurrency, defaulting, validation and garbage collection of owned objects are not modelled.
  - Read, write and owner-reference failures are injected per key or kind, not produced by a server.
  - The one client behaviour relied on is that Create and Update of an object with an empty name are refused. That is the client library's check, "resource name may not be empty".
- `reflect.DeepEqual` is structural equality on datatypes.
- `controllerutil.SetControllerReference` appends a controller reference unless a failure is injected. Its own checks (an existing controller, scheme lookup) are replaced by that injected failure.
- `os.Getenv`, `uuid.NewRandom` and the `RuntimeInfo` parser `utils.New` are parameters of `Reconcile`. pkg/utils/controller_utils.go is not part of this model.
- RuntimeConfig.RuntimeInfo.DockerFileConfigMapName: the model returns the empty name for an unregistered runtime, because controller_utils.go is not part of this model. The builder's contracts only pass the result through.
- Logging (`log.Info`, `fmt.Printf`) is left out.
- The pkg/apis/runtime/v1alpha1/function_types.go scheme registration is left out. Only the `Function` fields became a datatype, with the spec's `Function` field named `source`.
- Work-queue concurrency and requeueing between passes are left out. Each pass is sequential, and repeated passes are stated as lemmas over successive stores.
- The test expectation at pkg/controller/function/function_controller_test.go:220-223, that the Service image tag equals the ConfigMap's resource version, is not encoded. The code tags with a UUID prefix and never updates an existing Service.
- ReconcileFunction.Reconcile models the ConfigMap step as written. The corrected step (`SyncConfigMapIntended`, `ApplyFunctionIntended`) is stated beside it and proved to converge in one pass, but the method keeps the source's behaviour.
- Int32 fields (timeout, the volume mode) are carried as a bounded newtype. No arithmetic is done on them.

## Findings

| source | as written | input that shows it | evidently intended | confidence | as-written member | corrected member |
|---|---|---|---|---|---|---|
| pkg/controller/function/function_controller.go:159-178 | After creating an absent ConfigMap, the code compares the desired data with the still-empty object it read into (line 171). It then updates that nameless object, which the client refuses, so the pass fails before the Service step. | A new Function whose ConfigMap and Service do not exist, with the operator config present and no failures. The first pass creates the ConfigMap and returns an error without a Service. Only the next pass creates the Service. | Create the ConfigMap and go on to the Service step in the same pass. | not executed; relies on the client refusing an update without a name | FunctionControllerLemmas.FreshConfigMapCreateThenFails, FunctionControllerLemmas.NewFunctionTakesTwoPasses | FunctionController.SyncConfigMapIntended and FunctionController.ApplyFunctionIntended, proved by FunctionControllerLemmas.SyncConfigMapIntendedConverges and FunctionControllerLemmas.IntendedStepsOnNewFunction |

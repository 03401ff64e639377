/**
 * One reconciliation pass of the Function controller: read the operator config,
 * resolve the runtime configuration, read the Function, bring its ConfigMap in line
 * with its spec, and create its Knative Service if there is none.
 *
 * `Pass` and its parts state what a pass does to the store; the class
 * `ReconcileFunction` performs the pass step by step against a mutable store and is
 * proved to agree with `Pass`.
 */
module FunctionController {
  import opened Wrappers
  import opened CoreTypes
  import opened ServingTypes
  import opened FunctionTypes
  import opened RuntimeConfig
  import opened ServingUtils
  import opened Strings
  import opened Store

  /** The key of the reconcile request. */
  datatype NamespacedName = NamespacedName(namespace: string, name: string)

  /** CONTROLLER_CONFIGMAP and CONTROLLER_CONFIGMAP_NS as read from the process environment, "" when unset. */
  datatype Env = Env(configMapName: string, configMapNamespace: string)

  /** How the operator's ConfigMap becomes a RuntimeInfo; the parser itself is not part of this model. */
  type RuntimeInfoParser = ConfigMap -> Result<RuntimeInfo, Error>

  const DefaultConfigName := "fn-config"
  const DefaultConfigNamespace := "default"

  /** Where the operator config is read from: the defaults, each overridden by its non-empty variable. */
  function ConfigKey(env: Env): Key {
    Key(ConfigMapKind,
        if |env.configMapNamespace| > 0 then env.configMapNamespace else DefaultConfigNamespace,
        if |env.configMapName| > 0 then env.configMapName else DefaultConfigName)
  }

  function FunctionKey(request: NamespacedName): Key {
    Key(FunctionKind, request.namespace, request.name)
  }

  /** The entries of the Function's ConfigMap: handler entry point, source and package manifest. */
  function DesiredConfigMapData(spec: FunctionSpec): (data: map<string, string>)
    ensures data.Keys == {"handler", "handler.js", "package.json"}
    ensures data["handler"] == "handler.main"
    ensures data["handler.js"] == spec.source
    ensures data["package.json"] == if AllSpaces(spec.deps) then "{}" else spec.deps
  {
    map["handler" := "handler.main",
        "handler.js" := spec.source,
        "package.json" := if |TrimSpaces(spec.deps)| == 0 then "{}" else spec.deps]
  }

  /** Metadata of a derived object: the Function's namespace, name and labels, no owner yet. */
  function DerivedMeta(fn: Function): ObjectMeta {
    ObjectMeta(fn.meta.namespace, fn.meta.name, "", fn.meta.labels, [])
  }

  function DesiredConfigMap(fn: Function): ConfigMap {
    ConfigMap(DerivedMeta(fn), DesiredConfigMapData(fn.spec))
  }

  /** `<registry>/<namespace>-<name>:<suffix>` */
  function ImageName(registry: string, fn: Function, suffix: string): string {
    registry + "/" + fn.meta.namespace + "-" + fn.meta.name + ":" + suffix
  }

  function DesiredService(imageName: string, fn: Function, ri: RuntimeInfo): Service {
    Service(DerivedMeta(fn), GetServiceSpec(imageName, fn, ri))
  }

  /** The controller reference to `owner`. */
  function ControllerRef(owner: Function): OwnerReference {
    OwnerReference("Function", owner.meta.name, owner.meta.uid, true)
  }

  /** `meta` with `owner` recorded as its controller, unless the step is made to fail for `kind`. */
  function SetControllerReference(f: Faults, kind: Kind, owner: Function, meta: ObjectMeta): (r: Result<ObjectMeta, Error>)
    ensures r.Success? ==> r.value == meta.(ownerReferences := meta.ownerReferences + [ControllerRef(owner)])
    ensures r.Failure? <==> kind in f.ownerRef
  {
    if kind in f.ownerRef then Failure(f.ownerRef[kind])
    else Success(meta.(ownerReferences := meta.ownerReferences + [ControllerRef(owner)]))
  }

  /**
   * The ConfigMap step as written: a read error other than NotFound is returned; an
   * absent ConfigMap is created; then, if `desired.data` differs from the data of what
   * was read (nothing at all after a create), the object read gets the desired data and
   * is updated.
   */
  function SyncConfigMap(s: Objects, f: Faults, desired: ConfigMap): (o: Outcome)
    requires Valid(s)
    ensures Valid(o.store)
  {
    var got := Get(s, f, CMObj(desired).StoreKey());
    if got.Failure? && !got.error.NotFound? then Outcome(s, Some(got.error))
    else
      var created := if got.Failure? then Create(s, f, CMObj(desired)) else Outcome(s, None);
      if created.err.Some? then created
      else
        var found := if got.Failure? then EmptyConfigMap else got.value.cm;
        if desired.data == found.data then created
        else Update(created.store, f, CMObj(found.(data := desired.data)))
  }

  /**
   * The ConfigMap step as evidently intended: create and stop when absent; otherwise
   * replace only the data, and only when it differs.
   */
  function SyncConfigMapIntended(s: Objects, f: Faults, desired: ConfigMap): (o: Outcome)
    requires Valid(s)
    ensures Valid(o.store)
  {
    var got := Get(s, f, CMObj(desired).StoreKey());
    if got.Failure? then
      if got.error.NotFound? then Create(s, f, CMObj(desired)) else Outcome(s, Some(got.error))
    else if got.value.cm.data == desired.data then Outcome(s, None)
    else Update(s, f, CMObj(got.value.cm.(data := desired.data)))
  }

  /**
   * The Service step: a read error other than NotFound is returned; an absent Service is
   * created; a present one is left as it is, whatever its spec.
   */
  function SyncService(s: Objects, f: Faults, desired: Service): (o: Outcome)
    requires Valid(s)
    ensures Valid(o.store)
  {
    var got := Get(s, f, SvcObj(desired).StoreKey());
    if got.Failure? then
      if got.error.NotFound? then Create(s, f, SvcObj(desired)) else Outcome(s, Some(got.error))
    else Outcome(s, None)
  }

  /** What a pass does once the Function `fn` has been read and the runtime configuration resolved. */
  function ApplyFunction(s: Objects, f: Faults, fn: Function, ri: RuntimeInfo, suffix: string): (o: Outcome)
    requires Valid(s)
    ensures Valid(o.store)
  {
    var cmMeta := SetControllerReference(f, ConfigMapKind, fn, DerivedMeta(fn));
    if cmMeta.Failure? then Outcome(s, Some(cmMeta.error))
    else
      var synced := SyncConfigMap(s, f, DesiredConfigMap(fn).(meta := cmMeta.value));
      if synced.err.Some? then synced
      else
        var svc := DesiredService(ImageName(ri.registryInfo, fn, suffix), fn, ri);
        var svcMeta := SetControllerReference(f, ServiceKind, fn, svc.meta);
        if svcMeta.Failure? then Outcome(synced.store, Some(svcMeta.error))
        else SyncService(synced.store, f, svc.(meta := svcMeta.value))
  }

  /** The same steps with the ConfigMap step as evidently intended. */
  function ApplyFunctionIntended(s: Objects, f: Faults, fn: Function, ri: RuntimeInfo, suffix: string): (o: Outcome)
    requires Valid(s)
    ensures Valid(o.store)
  {
    var cmMeta := SetControllerReference(f, ConfigMapKind, fn, DerivedMeta(fn));
    if cmMeta.Failure? then Outcome(s, Some(cmMeta.error))
    else
      var synced := SyncConfigMapIntended(s, f, DesiredConfigMap(fn).(meta := cmMeta.value));
      if synced.err.Some? then synced
      else
        var svc := DesiredService(ImageName(ri.registryInfo, fn, suffix), fn, ri);
        var svcMeta := SetControllerReference(f, ServiceKind, fn, svc.meta);
        if svcMeta.Failure? then Outcome(synced.store, Some(svcMeta.error))
        else SyncService(synced.store, f, svc.(meta := svcMeta.value))
  }

  /** One whole pass for `request`; `suffix` is the fresh eight-character image tag. */
  function Pass(s: Objects, f: Faults, env: Env, request: NamespacedName,
                newRuntimeInfo: RuntimeInfoParser, suffix: string): (o: Outcome)
    requires Valid(s)
    ensures Valid(o.store)
  {
    var config := Get(s, f, ConfigKey(env));
    if config.Failure? then Outcome(s, Some(config.error))
    else
      var info := newRuntimeInfo(config.value.cm);
      if info.Failure? then Outcome(s, Some(info.error))
      else
        var found := Get(s, f, FunctionKey(request));
        if found.Failure? then Outcome(s, if found.error.NotFound? then None else Some(found.error))
        else ApplyFunction(s, f, found.value.fn, info.value, suffix)
  }

  /** The reconciler: its client is the in-memory store `objects` with the failures `faults`. */
  class ReconcileFunction {
    var objects: Objects
    var faults: Faults

    ghost predicate Valid()
      reads this
    {
      Store.Valid(objects)
    }

    constructor (objects: Objects, faults: Faults)
      requires Store.Valid(objects)
      ensures Valid() && this.objects == objects && this.faults == faults
    {
      this.objects := objects;
      this.faults := faults;
    }

    method Get(key: Key) returns (r: Result<Object, Error>)
      requires Valid()
      ensures r.Success? ==> key in objects && r.value == objects[key] && r.value.StoreKey() == key
      ensures r == Store.Get(objects, faults, key)
    {
      if key in faults.get {
        r := Failure(faults.get[key]);
      } else if key in objects {
        r := Success(objects[key]);
      } else {
        r := Failure(NotFound(key));
      }
    }

    method Create(obj: Object) returns (err: Option<Error>)
      requires Valid()
      modifies this
      ensures Valid() && faults == old(faults)
      ensures Outcome(objects, err) == Store.Create(old(objects), faults, obj)
    {
      var key := obj.StoreKey();
      if key.name == "" {
        err := Some(NameRequired);
      } else if key in faults.create {
        err := Some(faults.create[key]);
      } else if key in objects {
        err := Some(AlreadyExists(key));
      } else {
        objects := objects[key := obj];
        err := None;
      }
    }

    method Update(obj: Object) returns (err: Option<Error>)
      requires Valid()
      modifies this
      ensures Valid() && faults == old(faults)
      ensures Outcome(objects, err) == Store.Update(old(objects), faults, obj)
    {
      var key := obj.StoreKey();
      if key.name == "" {
        err := Some(NameRequired);
      } else if key in faults.update {
        err := Some(faults.update[key]);
      } else if key !in objects {
        err := Some(NotFound(key));
      } else {
        objects := objects[key := obj];
        err := None;
      }
    }

    /**
     * One reconciliation pass. `env` holds the two environment variables and `uuid`
     * the freshly generated UUID whose first eight characters tag the image.
     */
    method Reconcile(request: NamespacedName, env: Env, newRuntimeInfo: RuntimeInfoParser, uuid: string)
      returns (err: Option<Error>)
      requires Valid()
      requires |uuid| >= 8
      modifies this
      ensures Valid() && faults == old(faults)
      ensures Outcome(objects, err) == Pass(old(objects), faults, env, request, newRuntimeInfo, uuid[..8])
    {
      var fnConfigName := DefaultConfigName;
      var fnConfigNamespace := DefaultConfigNamespace;
      if |env.configMapName| > 0 {
        fnConfigName := env.configMapName;
      }
      if |env.configMapNamespace| > 0 {
        fnConfigNamespace := env.configMapNamespace;
      }
      var got := Get(Key(ConfigMapKind, fnConfigNamespace, fnConfigName));
      if got.Failure? {
        return Some(got.error);
      }
      var fnConfig := got.value.cm;
      var rnInfo := newRuntimeInfo(fnConfig);
      if rnInfo.Failure? {
        return Some(rnInfo.error);
      }

      got := Get(Key(FunctionKind, request.namespace, request.name));
      if got.Failure? {
        if got.error.NotFound? {
          return None;
        }
        return Some(got.error);
      }
      var fn := got.value.fn;

      var data: map<string, string> := map[];
      data := data["handler" := "handler.main"];
      data := data["handler.js" := fn.spec.source];
      if |TrimSpaces(fn.spec.deps)| == 0 {
        data := data["package.json" := "{}"];
      } else {
        data := data["package.json" := fn.spec.deps];
      }

      // The ConfigMap
      var deployCm := ConfigMap(ObjectMeta(fn.meta.namespace, fn.meta.name, "", fn.meta.labels, []), data);
      var owned := SetControllerReference(faults, ConfigMapKind, fn, deployCm.meta);
      if owned.Failure? {
        return Some(owned.error);
      }
      deployCm := deployCm.(meta := owned.value);
      assert deployCm == DesiredConfigMap(fn).(meta := owned.value);
      err := ManageConfigMap(deployCm);
      if err.Some? {
        return;
      }

      // The Service
      var dockerRegistry := rnInfo.value.registryInfo;
      var randomStr := uuid[..8];
      var imageName := dockerRegistry + "/" + fn.meta.namespace + "-" + fn.meta.name + ":" + randomStr;
      var deployService := Service(ObjectMeta(fn.meta.namespace, fn.meta.name, "", fn.meta.labels, []),
                                   GetServiceSpec(imageName, fn, rnInfo.value));
      owned := SetControllerReference(faults, ServiceKind, fn, deployService.meta);
      if owned.Failure? {
        return Some(owned.error);
      }
      deployService := deployService.(meta := owned.value);
      err := ManageService(deployService);
    }

    /** Lines 159-178 of the pass: bring the stored ConfigMap in line with `deployCm`. */
    method ManageConfigMap(deployCm: ConfigMap) returns (err: Option<Error>)
      requires Valid()
      modifies this
      ensures Valid() && faults == old(faults)
      ensures Outcome(objects, err) == SyncConfigMap(old(objects), faults, deployCm)
    {
      var foundCm := EmptyConfigMap;
      var got := Get(Key(ConfigMapKind, deployCm.meta.namespace, deployCm.meta.name));
      if got.Failure? && got.error.NotFound? {
        err := Create(CMObj(deployCm));
        if err.Some? {
          return;
        }
      } else if got.Failure? {
        return Some(got.error);
      } else {
        foundCm := got.value.cm;
      }
      if deployCm.data != foundCm.data {
        foundCm := foundCm.(data := deployCm.data);
        err := Update(CMObj(foundCm));
        if err.Some? {
          return;
        }
      }
      return None;
    }

    /** Lines 198-219 of the pass: create the Service `deployService` if there is none. */
    method ManageService(deployService: Service) returns (err: Option<Error>)
      requires Valid()
      modifies this
      ensures Valid() && faults == old(faults)
      ensures Outcome(objects, err) == SyncService(old(objects), faults, deployService)
    {
      var foundService := EmptyService;
      var got := Get(Key(ServiceKind, deployService.meta.namespace, deployService.meta.name));
      if got.Failure? && got.error.NotFound? {
        err := Create(SvcObj(deployService));
        if err.Some? {
          return;
        }
      } else if got.Failure? {
        return Some(got.error);
      } else {
        foundService := got.value.svc;
      }
      // The desired spec is compared with itself, not with `foundService.spec`: the
      // update of the found Service that would follow a difference cannot happen.
      if deployService.spec != deployService.spec {
        assert false;
      }
      return None;
    }
  }
}

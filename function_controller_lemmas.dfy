/** What one reconciliation pass promises, proved of `Pass` and its parts. */
module FunctionControllerLemmas {
  import opened Wrappers
  import opened CoreTypes
  import opened ServingTypes
  import opened FunctionTypes
  import opened RuntimeConfig
  import opened ServingUtils
  import opened Strings
  import opened Store
  import opened FunctionController

  /** `s'` agrees with `s` everywhere outside `keys`. */
  ghost predicate ChangedOnlyAt(s: Objects, s': Objects, keys: set<Key>) {
    forall k :: k !in keys ==> (k in s' <==> k in s) && (k in s ==> s'[k] == s[k])
  }

  function ConfigMapKey(request: NamespacedName): Key {
    Key(ConfigMapKind, request.namespace, request.name)
  }

  function ServiceKey(request: NamespacedName): Key {
    Key(ServiceKind, request.namespace, request.name)
  }

  // ----- Which ConfigMap holds the operator configuration -----

  /** Defaults "fn-config" in "default"; each non-empty variable replaces its part, independently of the other. */
  lemma ConfigKeySelection(env: Env)
    ensures ConfigKey(Env("", "")) == Key(ConfigMapKind, "default", "fn-config")
    ensures ConfigKey(env).kind == ConfigMapKind
    ensures env.configMapName != "" ==> ConfigKey(env).name == env.configMapName
    ensures env.configMapNamespace != "" ==> ConfigKey(env).namespace == env.configMapNamespace
    ensures ConfigKey(env).name == ConfigKey(Env(env.configMapName, "")).name
    ensures ConfigKey(env).namespace == ConfigKey(Env("", env.configMapNamespace)).namespace
  {
  }

  // ----- Early exits: nothing is written -----

  /** A failed read of the operator config ends the pass with that error and no write. */
  lemma ConfigReadFailureAborts(s: Objects, f: Faults, env: Env, request: NamespacedName,
                                newRuntimeInfo: RuntimeInfoParser, suffix: string)
    requires Valid(s)
    requires Get(s, f, ConfigKey(env)).Failure?
    ensures Pass(s, f, env, request, newRuntimeInfo, suffix) == Outcome(s, Some(Get(s, f, ConfigKey(env)).error))
  {
  }

  /** A missing operator config is reported as NotFound naming the ConfigMap that was looked for. */
  lemma MissingConfigIsReported(s: Objects, f: Faults, env: Env, request: NamespacedName,
                                newRuntimeInfo: RuntimeInfoParser, suffix: string)
    requires Valid(s)
    requires ConfigKey(env) !in s && ConfigKey(env) !in f.get
    ensures Pass(s, f, env, request, newRuntimeInfo, suffix).store == s
    ensures Pass(s, f, env, request, newRuntimeInfo, suffix).err == Some(NotFound(ConfigKey(env)))
    ensures env == Env("bla-config", "") ==>
              Pass(s, f, env, request, newRuntimeInfo, suffix).err.value.key.name == "bla-config"
    ensures env == Env("", "stage") ==>
              Pass(s, f, env, request, newRuntimeInfo, suffix).err.value.key == Key(ConfigMapKind, "stage", "fn-config")
  {
  }

  /** A configuration the parser rejects ends the pass with the parser's error and no write. */
  lemma RuntimeInfoFailureAborts(s: Objects, f: Faults, env: Env, request: NamespacedName,
                                 newRuntimeInfo: RuntimeInfoParser, suffix: string)
    requires Valid(s)
    requires Get(s, f, ConfigKey(env)).Success?
    requires newRuntimeInfo(Get(s, f, ConfigKey(env)).value.cm).Failure?
    ensures Pass(s, f, env, request, newRuntimeInfo, suffix) ==
              Outcome(s, Some(newRuntimeInfo(Get(s, f, ConfigKey(env)).value.cm).error))
  {
  }

  /**
   * When the Function cannot be read the store is left alone: NotFound (the Function was
   * deleted) is a success, any other error is returned as it is.
   */
  lemma FunctionReadFailureWritesNothing(s: Objects, f: Faults, env: Env, request: NamespacedName,
                                         newRuntimeInfo: RuntimeInfoParser, suffix: string)
    requires Valid(s)
    requires Get(s, f, FunctionKey(request)).Failure?
    ensures Pass(s, f, env, request, newRuntimeInfo, suffix).store == s
    ensures Get(s, f, ConfigKey(env)).Success? && newRuntimeInfo(Get(s, f, ConfigKey(env)).value.cm).Success? ==>
              Pass(s, f, env, request, newRuntimeInfo, suffix).err ==
              (if Get(s, f, FunctionKey(request)).error.NotFound? then None else Some(Get(s, f, FunctionKey(request)).error))
  {
  }

  /** A pass for a Function that does not exist succeeds and writes nothing. */
  lemma MissingFunctionIsNoOp(s: Objects, f: Faults, env: Env, request: NamespacedName,
                              newRuntimeInfo: RuntimeInfoParser, suffix: string)
    requires Valid(s)
    requires Get(s, f, ConfigKey(env)).Success?
    requires newRuntimeInfo(Get(s, f, ConfigKey(env)).value.cm).Success?
    requires FunctionKey(request) !in s && FunctionKey(request) !in f.get
    ensures Pass(s, f, env, request, newRuntimeInfo, suffix) == Outcome(s, None)
  {
  }

  // ----- What a pass may write -----

  lemma SyncConfigMapFrame(s: Objects, f: Faults, desired: ConfigMap)
    requires Valid(s)
    ensures ChangedOnlyAt(s, SyncConfigMap(s, f, desired).store, {CMObj(desired).StoreKey()})
  {
  }

  lemma SyncServiceFrame(s: Objects, f: Faults, desired: Service)
    requires Valid(s)
    ensures ChangedOnlyAt(s, SyncService(s, f, desired).store, {SvcObj(desired).StoreKey()})
  {
  }

  /**
   * A pass writes at most the ConfigMap and the Service named like the request: the
   * Function, the operator config (unless it has that very name) and everything else
   * are left as they were, and nothing is deleted.
   */
  lemma PassWritesOnlyDerivedObjects(s: Objects, f: Faults, env: Env, request: NamespacedName,
                                     newRuntimeInfo: RuntimeInfoParser, suffix: string)
    requires Valid(s)
    ensures ChangedOnlyAt(s, Pass(s, f, env, request, newRuntimeInfo, suffix).store,
                          {ConfigMapKey(request), ServiceKey(request)})
  {
    var config := Get(s, f, ConfigKey(env));
    var found := Get(s, f, FunctionKey(request));
    if config.Success? && newRuntimeInfo(config.value.cm).Success? && found.Success? {
      var fn := found.value.fn;
      assert fn.meta.namespace == request.namespace && fn.meta.name == request.name;
      PassReachesApply(s, f, env, request, newRuntimeInfo, suffix);
      ApplyWritesOnlyDerivedObjects(s, f, fn, newRuntimeInfo(config.value.cm).value, suffix);
    }
  }

  /** Once the Function has been read, the steps write at most its ConfigMap and its Service. */
  lemma ApplyWritesOnlyDerivedObjects(s: Objects, f: Faults, fn: Function, ri: RuntimeInfo, suffix: string)
    requires Valid(s)
    ensures ChangedOnlyAt(s, ApplyFunction(s, f, fn, ri, suffix).store,
                          {Key(ConfigMapKind, fn.meta.namespace, fn.meta.name), Key(ServiceKind, fn.meta.namespace, fn.meta.name)})
  {
    var cmMeta := SetControllerReference(f, ConfigMapKind, fn, DerivedMeta(fn));
    if cmMeta.Success? {
      var desired := DesiredConfigMap(fn).(meta := cmMeta.value);
      assert CMObj(desired).StoreKey() == Key(ConfigMapKind, fn.meta.namespace, fn.meta.name);
      SyncConfigMapFrame(s, f, desired);
      var synced := SyncConfigMap(s, f, desired);
      if synced.err.None? {
        var svc := DesiredService(ImageName(ri.registryInfo, fn, suffix), fn, ri);
        var svcMeta := SetControllerReference(f, ServiceKind, fn, svc.meta);
        if svcMeta.Success? {
          assert SvcObj(svc.(meta := svcMeta.value)).StoreKey() == Key(ServiceKind, fn.meta.namespace, fn.meta.name);
          SyncServiceFrame(synced.store, f, svc.(meta := svcMeta.value));
        }
      }
    }
  }

  /** In particular the Function is never written. */
  lemma FunctionNeverWritten(s: Objects, f: Faults, env: Env, request: NamespacedName,
                             newRuntimeInfo: RuntimeInfoParser, suffix: string, k: Key)
    requires Valid(s)
    requires k.kind == FunctionKind
    ensures k in Pass(s, f, env, request, newRuntimeInfo, suffix).store <==> k in s
    ensures k in s ==> Pass(s, f, env, request, newRuntimeInfo, suffix).store[k] == s[k]
  {
    PassWritesOnlyDerivedObjects(s, f, env, request, newRuntimeInfo, suffix);
  }

  // ----- The ConfigMap step -----

  /** A present ConfigMap whose data differs gets the desired data and keeps everything else. */
  lemma ConfigMapUpdateReplacesOnlyData(s: Objects, f: Faults, desired: ConfigMap)
    requires Valid(s)
    requires CMObj(desired).StoreKey() in s && CMObj(desired).StoreKey() !in f.get
    requires CMObj(desired).StoreKey() !in f.update
    ensures var k := CMObj(desired).StoreKey();
            SyncConfigMap(s, f, desired) ==
              if s[k].cm.data == desired.data then Outcome(s, None)
              else Outcome(s[k := CMObj(s[k].cm.(data := desired.data))], None)
  {
  }

  /** A ConfigMap that already holds the desired data is not written: the step is idempotent. */
  lemma SyncConfigMapIdempotent(s: Objects, f: Faults, desired: ConfigMap)
    requires Valid(s)
    requires SyncConfigMap(s, f, desired).err.None?
    requires forall k :: k in f.get ==> !f.get[k].NotFound?
    ensures var s' := SyncConfigMap(s, f, desired).store;
            SyncConfigMap(s', f, desired) == Outcome(s', None)
  {
  }

  /**
   * As written, a pass that finds no ConfigMap creates it and then updates the empty
   * object it read into, which has no name: the client refuses that update, so the pass
   * fails after the create and the Service step is not reached.
   */
  lemma FreshConfigMapCreateThenFails(s: Objects, f: Faults, desired: ConfigMap)
    requires Valid(s)
    requires desired.meta.name != "" && desired.data != map[]
    requires CMObj(desired).StoreKey() !in s
    requires CMObj(desired).StoreKey() !in f.get && CMObj(desired).StoreKey() !in f.create
    ensures SyncConfigMap(s, f, desired) ==
              Outcome(s[CMObj(desired).StoreKey() := CMObj(desired)], Some(NameRequired))
  {
  }

  /** The intended step: a missing ConfigMap is created and the step succeeds. */
  lemma FreshConfigMapCreatedAsIntended(s: Objects, f: Faults, desired: ConfigMap)
    requires Valid(s)
    requires desired.meta.name != ""
    requires CMObj(desired).StoreKey() !in s
    requires CMObj(desired).StoreKey() !in f.get && CMObj(desired).StoreKey() !in f.create
    ensures SyncConfigMapIntended(s, f, desired) ==
              Outcome(s[CMObj(desired).StoreKey() := CMObj(desired)], None)
  {
  }

  /**
   * The intended step converges in one call: without failures at its key it succeeds and
   * leaves a ConfigMap holding the desired data, whose other fields are kept when it existed.
   */
  lemma SyncConfigMapIntendedConverges(s: Objects, f: Faults, desired: ConfigMap)
    requires Valid(s)
    requires desired.meta.name != ""
    requires CMObj(desired).StoreKey() !in f.get
    requires CMObj(desired).StoreKey() !in f.create && CMObj(desired).StoreKey() !in f.update
    ensures var k := CMObj(desired).StoreKey();
            var o := SyncConfigMapIntended(s, f, desired);
            && o.err.None?
            && k in o.store && o.store[k].cm.data == desired.data
            && (k in s ==> o.store[k].cm.meta == s[k].cm.meta)
            && SyncConfigMapIntended(o.store, f, desired) == Outcome(o.store, None)
  {
  }

  // ----- The Service step -----

  /** A Service that exists is never written, whatever its spec and whatever the desired one. */
  lemma ExistingServiceUntouched(s: Objects, f: Faults, env: Env, request: NamespacedName,
                                 newRuntimeInfo: RuntimeInfoParser, suffix: string)
    requires Valid(s)
    requires ServiceKey(request) in s
    ensures ServiceKey(request) in Pass(s, f, env, request, newRuntimeInfo, suffix).store
    ensures Pass(s, f, env, request, newRuntimeInfo, suffix).store[ServiceKey(request)] == s[ServiceKey(request)]
  {
    PassWritesOnlyDerivedObjects(s, f, env, request, newRuntimeInfo, suffix);
    var config := Get(s, f, ConfigKey(env));
    var found := Get(s, f, FunctionKey(request));
    if config.Success? && newRuntimeInfo(config.value.cm).Success? && found.Success? {
      var fn := found.value.fn;
      var ri := newRuntimeInfo(config.value.cm).value;
      assert fn.meta.namespace == request.namespace && fn.meta.name == request.name;
      var cmMeta := SetControllerReference(f, ConfigMapKind, fn, DerivedMeta(fn));
      if cmMeta.Success? {
        var desired := DesiredConfigMap(fn).(meta := cmMeta.value);
        SyncConfigMapFrame(s, f, desired);
        var synced := SyncConfigMap(s, f, desired);
        if synced.err.None? {
          var svc := DesiredService(ImageName(ri.registryInfo, fn, suffix), fn, ri);
          var svcMeta := SetControllerReference(f, ServiceKind, fn, svc.meta);
          if svcMeta.Success? {
            assert SvcObj(svc.(meta := svcMeta.value)).StoreKey() == ServiceKey(request);
            SyncServiceKeepsExisting(synced.store, f, svc.(meta := svcMeta.value));
          }
        }
      }
    }
  }

  lemma SyncServiceKeepsExisting(s: Objects, f: Faults, desired: Service)
    requires Valid(s)
    requires SvcObj(desired).StoreKey() in s
    ensures SyncService(s, f, desired).store == s
  {
  }

  /** Two passes that draw different tags want different Services. */
  lemma ImageTagsDistinguishSpecs(registry: string, fn: Function, ri: RuntimeInfo, suffix1: string, suffix2: string)
    requires suffix1 != suffix2
    ensures ImageName(registry, fn, suffix1) != ImageName(registry, fn, suffix2)
    ensures DesiredService(ImageName(registry, fn, suffix1), fn, ri) != DesiredService(ImageName(registry, fn, suffix2), fn, ri)
  {
    var prefix := registry + "/" + fn.meta.namespace + "-" + fn.meta.name + ":";
    assert ImageName(registry, fn, suffix1) == prefix + suffix1;
    assert ImageName(registry, fn, suffix2) == prefix + suffix2;
    assert (prefix + suffix1)[|prefix|..] == suffix1;
    assert (prefix + suffix2)[|prefix|..] == suffix2;
    if DesiredService(ImageName(registry, fn, suffix1), fn, ri) == DesiredService(ImageName(registry, fn, suffix2), fn, ri) {
      SpecDeterminesImage(ImageName(registry, fn, suffix1), ImageName(registry, fn, suffix2), fn, ri);
    }
  }

  // ----- Errors in the steps after the Function has been read -----

  /**
   * The steps stop at the first error and return it: an owner-reference failure for the
   * ConfigMap before anything is written, an error of the ConfigMap step with what that
   * step wrote, and an owner-reference failure for the Service after the ConfigMap step.
   */
  lemma ApplyStopsAtFirstError(s: Objects, f: Faults, fn: Function, ri: RuntimeInfo, suffix: string)
    requires Valid(s)
    ensures ConfigMapKind in f.ownerRef ==>
              ApplyFunction(s, f, fn, ri, suffix) == Outcome(s, Some(f.ownerRef[ConfigMapKind]))
    ensures var synced := SyncConfigMap(s, f, DesiredConfigMap(fn).(meta := OwnedMeta(fn)));
            (ConfigMapKind !in f.ownerRef && synced.err.Some? ==>
               ApplyFunction(s, f, fn, ri, suffix) == synced)
    ensures var synced := SyncConfigMap(s, f, DesiredConfigMap(fn).(meta := OwnedMeta(fn)));
            (ConfigMapKind !in f.ownerRef && synced.err.None? && ServiceKind in f.ownerRef ==>
               ApplyFunction(s, f, fn, ri, suffix) == Outcome(synced.store, Some(f.ownerRef[ServiceKind])))
  {
    assert DerivedMeta(fn).ownerReferences + [ControllerRef(fn)] == [ControllerRef(fn)];
  }

  /**
   * The ConfigMap step returns the errors of the client: a read error other than NotFound
   * with no write, a create error with no write, and an update error of a present
   * ConfigMap with no write.
   */
  lemma SyncConfigMapErrors(s: Objects, f: Faults, desired: ConfigMap)
    requires Valid(s)
    ensures var k := CMObj(desired).StoreKey();
            (k in f.get && !f.get[k].NotFound? ==>
               SyncConfigMap(s, f, desired) == Outcome(s, Some(f.get[k])))
    ensures var k := CMObj(desired).StoreKey();
            (k !in f.get && k !in s && desired.meta.name != "" && k in f.create ==>
               SyncConfigMap(s, f, desired) == Outcome(s, Some(f.create[k])))
    ensures var k := CMObj(desired).StoreKey();
            (k !in f.get && k in s && s[k].cm.data != desired.data && k in f.update ==>
               SyncConfigMap(s, f, desired) == Outcome(s, Some(f.update[k])))
  {
  }

  /** The Service step returns a read error other than NotFound, and a create error, with no write. */
  lemma SyncServiceErrors(s: Objects, f: Faults, desired: Service)
    requires Valid(s)
    ensures var k := SvcObj(desired).StoreKey();
            (k in f.get && !f.get[k].NotFound? ==>
               SyncService(s, f, desired) == Outcome(s, Some(f.get[k])))
    ensures var k := SvcObj(desired).StoreKey();
            (k !in f.get && k !in s && desired.meta.name != "" && k in f.create ==>
               SyncService(s, f, desired) == Outcome(s, Some(f.create[k])))
  {
  }

  // ----- A successful pass -----

  /** The controller-owned metadata every derived object is created with. */
  function OwnedMeta(fn: Function): ObjectMeta {
    DerivedMeta(fn).(ownerReferences := [ControllerRef(fn)])
  }

  /** After the Function `fn` has been read, success means that its ConfigMap existed already and now holds the data derived from the spec. */
  lemma ApplySucceededConfigMap(s: Objects, f: Faults, fn: Function, ri: RuntimeInfo, suffix: string)
    requires Valid(s)
    requires ApplyFunction(s, f, fn, ri, suffix).err.None?
    ensures var cmKey := Key(ConfigMapKind, fn.meta.namespace, fn.meta.name);
            var o := ApplyFunction(s, f, fn, ri, suffix);
            cmKey in s && cmKey in o.store && o.store[cmKey].cm.data == DesiredConfigMapData(fn.spec)
  {
    var cmMeta := SetControllerReference(f, ConfigMapKind, fn, DerivedMeta(fn));
    var desired := DesiredConfigMap(fn).(meta := cmMeta.value);
    SyncConfigMapSucceeded(s, f, desired);
    var synced := SyncConfigMap(s, f, desired);
    var svc := DesiredService(ImageName(ri.registryInfo, fn, suffix), fn, ri);
    var svcMeta := SetControllerReference(f, ServiceKind, fn, svc.meta);
    assert synced.store[CMObj(desired).StoreKey()].cm.data == desired.data;
    assert ApplyFunction(s, f, fn, ri, suffix) == SyncService(synced.store, f, svc.(meta := svcMeta.value));
    SyncServiceFrame(synced.store, f, svc.(meta := svcMeta.value));
  }

  /**
   * After the Function `fn` has been read, success means that its Service exists; if the
   * pass created it, it is owned by `fn`, carries its labels and runs the freshly tagged image.
   */
  lemma ApplySucceededService(s: Objects, f: Faults, fn: Function, ri: RuntimeInfo, suffix: string)
    requires Valid(s)
    requires ApplyFunction(s, f, fn, ri, suffix).err.None?
    ensures var svcKey := Key(ServiceKind, fn.meta.namespace, fn.meta.name);
            var o := ApplyFunction(s, f, fn, ri, suffix);
            && svcKey in o.store
            && (svcKey !in s ==>
                  o.store[svcKey] == SvcObj(Service(OwnedMeta(fn), GetServiceSpec(ImageName(ri.registryInfo, fn, suffix), fn, ri))))
  {
    var cmMeta := SetControllerReference(f, ConfigMapKind, fn, DerivedMeta(fn));
    var desired := DesiredConfigMap(fn).(meta := cmMeta.value);
    var synced := SyncConfigMap(s, f, desired);
    SyncConfigMapFrame(s, f, desired);
    var svc := DesiredService(ImageName(ri.registryInfo, fn, suffix), fn, ri);
    var svcMeta := SetControllerReference(f, ServiceKind, fn, svc.meta);
    var owned := svc.(meta := svcMeta.value);
    assert ApplyFunction(s, f, fn, ri, suffix) == SyncService(synced.store, f, owned);
    SyncServiceSucceeded(synced.store, f, owned);
    assert SvcObj(owned).StoreKey() == Key(ServiceKind, fn.meta.namespace, fn.meta.name);
    assert owned == Service(OwnedMeta(fn), GetServiceSpec(ImageName(ri.registryInfo, fn, suffix), fn, ri));
  }

  /** The ConfigMap step (as written) succeeds only on a ConfigMap that existed, and leaves it holding the desired data. */
  lemma SyncConfigMapSucceeded(s: Objects, f: Faults, desired: ConfigMap)
    requires Valid(s)
    requires desired.data != map[]
    requires SyncConfigMap(s, f, desired).err.None?
    ensures var k := CMObj(desired).StoreKey();
            var o := SyncConfigMap(s, f, desired);
            k in s && k in o.store && o.store[k].cm.data == desired.data
  {
  }

  /** The Service step succeeds with a Service in place: the desired one if there was none. */
  lemma SyncServiceSucceeded(s: Objects, f: Faults, desired: Service)
    requires Valid(s)
    requires SyncService(s, f, desired).err.None?
    ensures var k := SvcObj(desired).StoreKey();
            var o := SyncService(s, f, desired);
            k in o.store && (k !in s ==> o.store[k] == SvcObj(desired))
  {
  }

  /** A successful pass over an existing Function leaves its ConfigMap mirroring the spec and a Service in place. */
  lemma SuccessfulPassConverges(s: Objects, f: Faults, env: Env, request: NamespacedName,
                                newRuntimeInfo: RuntimeInfoParser, suffix: string)
    requires Valid(s)
    requires FunctionKey(request) in s && FunctionKey(request) !in f.get
    requires Pass(s, f, env, request, newRuntimeInfo, suffix).err.None?
    ensures var o := Pass(s, f, env, request, newRuntimeInfo, suffix);
            var fn := s[FunctionKey(request)].fn;
            var ri := newRuntimeInfo(s[ConfigKey(env)].cm).value;
            && ConfigKey(env) in s && newRuntimeInfo(s[ConfigKey(env)].cm).Success?
            && ConfigMapKey(request) in o.store && o.store[ConfigMapKey(request)].cm.data == DesiredConfigMapData(fn.spec)
            && ServiceKey(request) in o.store
            && (ServiceKey(request) !in s ==>
                  o.store[ServiceKey(request)] == SvcObj(Service(OwnedMeta(fn), GetServiceSpec(ImageName(ri.registryInfo, fn, suffix), fn, ri))))
  {
    var fn := s[FunctionKey(request)].fn;
    assert fn.meta.namespace == request.namespace && fn.meta.name == request.name;
    ApplySucceededConfigMap(s, f, fn, newRuntimeInfo(s[ConfigKey(env)].cm).value, suffix);
    ApplySucceededService(s, f, fn, newRuntimeInfo(s[ConfigKey(env)].cm).value, suffix);
  }

  /** Once the config, the runtime configuration and the Function have been read, the pass is `ApplyFunction`. */
  lemma PassReachesApply(s: Objects, f: Faults, env: Env, request: NamespacedName,
                         newRuntimeInfo: RuntimeInfoParser, suffix: string)
    requires Valid(s)
    requires ConfigKey(env) in s && ConfigKey(env) !in f.get
    requires newRuntimeInfo(s[ConfigKey(env)].cm).Success?
    requires FunctionKey(request) in s && FunctionKey(request) !in f.get
    ensures Pass(s, f, env, request, newRuntimeInfo, suffix) ==
              ApplyFunction(s, f, s[FunctionKey(request)].fn, newRuntimeInfo(s[ConfigKey(env)].cm).value, suffix)
  {
  }

  /** The ConfigMap and Service steps, once successful, write nothing when repeated with any tag. */
  lemma ApplyIdempotent(s: Objects, f: Faults, fn: Function, ri: RuntimeInfo, suffix1: string, suffix2: string)
    requires Valid(s)
    requires ApplyFunction(s, f, fn, ri, suffix1).err.None?
    requires forall k :: k in f.get ==> !f.get[k].NotFound?
    ensures var s' := ApplyFunction(s, f, fn, ri, suffix1).store;
            ApplyFunction(s', f, fn, ri, suffix2) == Outcome(s', None)
  {
    var s' := ApplyFunction(s, f, fn, ri, suffix1).store;
    ApplySucceededConfigMap(s, f, fn, ri, suffix1);
    ApplySucceededService(s, f, fn, ri, suffix1);
    var cmMeta := SetControllerReference(f, ConfigMapKind, fn, DerivedMeta(fn));
    var desired := DesiredConfigMap(fn).(meta := cmMeta.value);
    assert CMObj(desired).StoreKey() == Key(ConfigMapKind, fn.meta.namespace, fn.meta.name);
    assert SyncConfigMap(s', f, desired) == Outcome(s', None);
    var svc := DesiredService(ImageName(ri.registryInfo, fn, suffix2), fn, ri);
    var svcMeta := SetControllerReference(f, ServiceKind, fn, svc.meta);
    assert SvcObj(svc.(meta := svcMeta.value)).StoreKey() == Key(ServiceKind, fn.meta.namespace, fn.meta.name);
    SyncServiceKeepsExisting(s', f, svc.(meta := svcMeta.value));
  }

  /**
   * Idempotence: after a successful pass, a second pass with the same inputs and any new
   * tag writes nothing and succeeds. It relies on the Function's ConfigMap not being the
   * operator config itself, and on no injected read failure posing as NotFound.
   */
  lemma SecondPassIsNoOp(s: Objects, f: Faults, env: Env, request: NamespacedName,
                         newRuntimeInfo: RuntimeInfoParser, suffix1: string, suffix2: string)
    requires Valid(s)
    requires Pass(s, f, env, request, newRuntimeInfo, suffix1).err.None?
    requires ConfigMapKey(request) != ConfigKey(env)
    requires forall k :: k in f.get ==> !f.get[k].NotFound?
    ensures var s' := Pass(s, f, env, request, newRuntimeInfo, suffix1).store;
            Pass(s', f, env, request, newRuntimeInfo, suffix2) == Outcome(s', None)
  {
    var s' := Pass(s, f, env, request, newRuntimeInfo, suffix1).store;
    PassWritesOnlyDerivedObjects(s, f, env, request, newRuntimeInfo, suffix1);
    InputsKept(s, s', env, request);
    if FunctionKey(request) in s {
      assert ConfigKey(env) in s && ConfigKey(env) !in f.get;
      var fn := s[FunctionKey(request)].fn;
      var ri := newRuntimeInfo(s[ConfigKey(env)].cm).value;
      PassReachesApply(s, f, env, request, newRuntimeInfo, suffix1);
      ApplyIdempotent(s, f, fn, ri, suffix1, suffix2);
      PassReachesApply(s', f, env, request, newRuntimeInfo, suffix2);
    }
  }

  /** A store changed only at the derived objects still holds the same config and Function. */
  lemma InputsKept(s: Objects, s': Objects, env: Env, request: NamespacedName)
    requires ChangedOnlyAt(s, s', {ConfigMapKey(request), ServiceKey(request)})
    requires ConfigMapKey(request) != ConfigKey(env)
    ensures ConfigKey(env) in s' <==> ConfigKey(env) in s
    ensures ConfigKey(env) in s ==> s'[ConfigKey(env)] == s[ConfigKey(env)]
    ensures FunctionKey(request) in s' <==> FunctionKey(request) in s
    ensures FunctionKey(request) in s ==> s'[FunctionKey(request)] == s[FunctionKey(request)]
  {
    assert ConfigKey(env) !in {ConfigMapKey(request), ServiceKey(request)};
    assert FunctionKey(request) !in {ConfigMapKey(request), ServiceKey(request)};
  }

  // ----- A new Function, as written -----

  /** The owned ConfigMap the pass writes for `fn`. */
  function OwnedConfigMap(fn: Function): ConfigMap {
    ConfigMap(OwnedMeta(fn), DesiredConfigMapData(fn.spec))
  }

  /** The owned Service the pass writes for `fn`, running the image tagged `suffix`. */
  function OwnedService(fn: Function, ri: RuntimeInfo, suffix: string): Service {
    Service(OwnedMeta(fn), GetServiceSpec(ImageName(ri.registryInfo, fn, suffix), fn, ri))
  }

  /** Without injected failures, the derived metadata gets exactly one owner: the Function, as controller. */
  lemma OwnedByController(fn: Function, kind: Kind)
    ensures SetControllerReference(NoFaults, kind, fn, DerivedMeta(fn)) == Success(OwnedMeta(fn))
  {
    assert DerivedMeta(fn).ownerReferences + [ControllerRef(fn)] == [ControllerRef(fn)];
  }

  /** Without failures, the steps for a Function whose ConfigMap is missing create it and then fail. */
  lemma ApplyOnMissingConfigMap(s: Objects, fn: Function, ri: RuntimeInfo, suffix: string)
    requires Valid(s)
    requires fn.meta.name != ""
    requires Key(ConfigMapKind, fn.meta.namespace, fn.meta.name) !in s
    ensures ApplyFunction(s, NoFaults, fn, ri, suffix) ==
              Outcome(s[Key(ConfigMapKind, fn.meta.namespace, fn.meta.name) := CMObj(OwnedConfigMap(fn))],
                      Some(NameRequired))
  {
    OwnedByController(fn, ConfigMapKind);
    var desired := DesiredConfigMap(fn).(meta := OwnedMeta(fn));
    assert desired == OwnedConfigMap(fn);
    assert CMObj(desired).StoreKey() == Key(ConfigMapKind, fn.meta.namespace, fn.meta.name);
    FreshConfigMapCreateThenFails(s, NoFaults, desired);
    assert SyncConfigMap(s, NoFaults, desired).err == Some(NameRequired);
  }

  /** Without failures, the steps for a Function whose ConfigMap is up to date and whose Service is missing create the Service. */
  lemma ApplyOnMissingService(s: Objects, fn: Function, ri: RuntimeInfo, suffix: string)
    requires Valid(s)
    requires fn.meta.name != ""
    requires var k := Key(ConfigMapKind, fn.meta.namespace, fn.meta.name);
             k in s && s[k].cm.data == DesiredConfigMapData(fn.spec)
    requires Key(ServiceKind, fn.meta.namespace, fn.meta.name) !in s
    ensures ApplyFunction(s, NoFaults, fn, ri, suffix) ==
              Outcome(s[Key(ServiceKind, fn.meta.namespace, fn.meta.name) := SvcObj(OwnedService(fn, ri, suffix))], None)
  {
    OwnedByController(fn, ConfigMapKind);
    OwnedByController(fn, ServiceKind);
    var desired := DesiredConfigMap(fn).(meta := OwnedMeta(fn));
    assert CMObj(desired).StoreKey() == Key(ConfigMapKind, fn.meta.namespace, fn.meta.name);
    assert SyncConfigMap(s, NoFaults, desired) == Outcome(s, None);
    var svc := DesiredService(ImageName(ri.registryInfo, fn, suffix), fn, ri).(meta := OwnedMeta(fn));
    assert DesiredService(ImageName(ri.registryInfo, fn, suffix), fn, ri).meta == DerivedMeta(fn);
    assert svc == OwnedService(fn, ri, suffix);
    assert SvcObj(svc).StoreKey() == Key(ServiceKind, fn.meta.namespace, fn.meta.name);
  }

  /**
   * With the ConfigMap step as intended, the same Function gets its owned ConfigMap and
   * its owned Service in one pass, and the pass succeeds.
   */
  lemma IntendedStepsOnNewFunction(s: Objects, fn: Function, ri: RuntimeInfo, suffix: string)
    requires Valid(s)
    requires fn.meta.name != ""
    requires Key(ConfigMapKind, fn.meta.namespace, fn.meta.name) !in s
    requires Key(ServiceKind, fn.meta.namespace, fn.meta.name) !in s
    ensures ApplyFunctionIntended(s, NoFaults, fn, ri, suffix) ==
              Outcome(s[Key(ConfigMapKind, fn.meta.namespace, fn.meta.name) := CMObj(OwnedConfigMap(fn))]
                       [Key(ServiceKind, fn.meta.namespace, fn.meta.name) := SvcObj(OwnedService(fn, ri, suffix))],
                      None)
  {
    OwnedByController(fn, ConfigMapKind);
    OwnedByController(fn, ServiceKind);
    var desired := DesiredConfigMap(fn).(meta := OwnedMeta(fn));
    assert desired == OwnedConfigMap(fn);
    assert CMObj(desired).StoreKey() == Key(ConfigMapKind, fn.meta.namespace, fn.meta.name);
    FreshConfigMapCreatedAsIntended(s, NoFaults, desired);
    var s1 := s[Key(ConfigMapKind, fn.meta.namespace, fn.meta.name) := CMObj(OwnedConfigMap(fn))];
    assert SyncConfigMapIntended(s, NoFaults, desired) == Outcome(s1, None);
    var svc := DesiredService(ImageName(ri.registryInfo, fn, suffix), fn, ri).(meta := OwnedMeta(fn));
    assert DesiredService(ImageName(ri.registryInfo, fn, suffix), fn, ri).meta == DerivedMeta(fn);
    assert svc == OwnedService(fn, ri, suffix);
    assert SvcObj(svc).StoreKey() == Key(ServiceKind, fn.meta.namespace, fn.meta.name);
    assert Key(ServiceKind, fn.meta.namespace, fn.meta.name) !in s1;
  }

  /**
   * As written, the first pass over a new Function creates its ConfigMap, owned by the
   * Function, and then fails on the update of the empty object read before: the Service
   * step is not reached.
   */
  lemma FirstPassOnNewFunction(s: Objects, env: Env, request: NamespacedName,
                               newRuntimeInfo: RuntimeInfoParser, suffix: string)
    requires Valid(s)
    requires ConfigKey(env) in s && newRuntimeInfo(s[ConfigKey(env)].cm).Success?
    requires FunctionKey(request) in s
    requires ConfigMapKey(request) !in s
    ensures Pass(s, NoFaults, env, request, newRuntimeInfo, suffix) ==
              Outcome(s[ConfigMapKey(request) := CMObj(OwnedConfigMap(s[FunctionKey(request)].fn))], Some(NameRequired))
  {
    var fn := s[FunctionKey(request)].fn;
    assert FnObj(fn).StoreKey() == FunctionKey(request);
    PassReachesApply(s, NoFaults, env, request, newRuntimeInfo, suffix);
    ApplyOnMissingConfigMap(s, fn, newRuntimeInfo(s[ConfigKey(env)].cm).value, suffix);
  }

  /** A pass that finds the ConfigMap up to date and no Service creates the Service and succeeds. */
  lemma PassCreatesMissingService(s: Objects, env: Env, request: NamespacedName,
                                  newRuntimeInfo: RuntimeInfoParser, suffix: string)
    requires Valid(s)
    requires ConfigKey(env) in s && newRuntimeInfo(s[ConfigKey(env)].cm).Success?
    requires FunctionKey(request) in s
    requires ConfigMapKey(request) in s
    requires s[ConfigMapKey(request)].cm.data == DesiredConfigMapData(s[FunctionKey(request)].fn.spec)
    requires ServiceKey(request) !in s
    ensures Pass(s, NoFaults, env, request, newRuntimeInfo, suffix) ==
              Outcome(s[ServiceKey(request) := SvcObj(OwnedService(s[FunctionKey(request)].fn,
                                                                   newRuntimeInfo(s[ConfigKey(env)].cm).value, suffix))],
                      None)
  {
    var fn := s[FunctionKey(request)].fn;
    assert FnObj(fn).StoreKey() == FunctionKey(request);
    PassReachesApply(s, NoFaults, env, request, newRuntimeInfo, suffix);
    ApplyOnMissingService(s, fn, newRuntimeInfo(s[ConfigKey(env)].cm).value, suffix);
  }

  /** Hence a new Function takes two passes to get its Service, and the first one reports an error. */
  lemma NewFunctionTakesTwoPasses(s: Objects, env: Env, request: NamespacedName,
                                  newRuntimeInfo: RuntimeInfoParser, suffix1: string, suffix2: string)
    requires Valid(s)
    requires ConfigKey(env) in s && newRuntimeInfo(s[ConfigKey(env)].cm).Success?
    requires FunctionKey(request) in s
    requires ConfigMapKey(request) !in s && ServiceKey(request) !in s
    ensures var o1 := Pass(s, NoFaults, env, request, newRuntimeInfo, suffix1);
            && o1.err == Some(NameRequired)
            && ServiceKey(request) !in o1.store
            && var o2 := Pass(o1.store, NoFaults, env, request, newRuntimeInfo, suffix2);
               o2.err.None? && ServiceKey(request) in o2.store
  {
    FirstPassOnNewFunction(s, env, request, newRuntimeInfo, suffix1);
    var fn := s[FunctionKey(request)].fn;
    var s1 := s[ConfigMapKey(request) := CMObj(OwnedConfigMap(fn))];
    assert ConfigKey(env) != ConfigMapKey(request);
    assert s1[ConfigKey(env)] == s[ConfigKey(env)] && s1[FunctionKey(request)] == s[FunctionKey(request)];
    PassCreatesMissingService(s1, env, request, newRuntimeInfo, suffix2);
  }
}

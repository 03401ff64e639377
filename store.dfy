/**
 * An in-memory stand-in for the API server as seen through the controller's client:
 * one map from (kind, namespace, name) to object, and a set of injected failures
 * that make a Get, Create or Update of a given key, or the owner-reference step for
 * a given kind, fail with a chosen error.
 */
module Store {
  import opened Wrappers
  import opened CoreTypes
  import opened ServingTypes
  import opened FunctionTypes

  datatype Kind = ConfigMapKind | ServiceKind | FunctionKind

  datatype Key = Key(kind: Kind, namespace: string, name: string)

  datatype Object = CMObj(cm: ConfigMap) | SvcObj(svc: Service) | FnObj(fn: Function) {
    function KindOf(): Kind {
      match this
      case CMObj(_) => ConfigMapKind
      case SvcObj(_) => ServiceKind
      case FnObj(_) => FunctionKind
    }

    function Meta(): ObjectMeta {
      match this
      case CMObj(c) => c.meta
      case SvcObj(v) => v.meta
      case FnObj(f) => f.meta
    }

    /** Where the object is stored. */
    function StoreKey(): Key {
      Key(KindOf(), Meta().namespace, Meta().name)
    }
  }

  /**
   * The errors a reconciliation pass can return: the store's NotFound and AlreadyExists,
   * the client's refusal of an object without a name, an injected infrastructure
   * failure, a malformed operator configuration, and a failure to set an owner reference.
   */
  datatype Error =
    | NotFound(key: Key)
    | AlreadyExists(key: Key)
    | NameRequired
    | ServerError(reason: string)
    | ConfigParseError(reason: string)
    | OwnerReferenceError(reason: string)

  type Objects = map<Key, Object>

  /** Every object is stored under its own kind, namespace and name, and has a name. */
  ghost predicate Valid(s: Objects) {
    forall k :: k in s ==> s[k].StoreKey() == k && k.name != ""
  }

  /** Injected failures, by operation and key (by kind for the owner-reference step). */
  datatype Faults = Faults(
    get: map<Key, Error>,
    create: map<Key, Error>,
    update: map<Key, Error>,
    ownerRef: map<Kind, Error>)

  const NoFaults := Faults(map[], map[], map[], map[])

  /** The store after a write, and the error the write returned, if any. */
  datatype Outcome = Outcome(store: Objects, err: Option<Error>)

  function Get(s: Objects, f: Faults, k: Key): (r: Result<Object, Error>)
    ensures r.Success? ==> k in s && r.value == s[k]
    ensures Valid(s) && r.Success? ==> r.value.KindOf() == k.kind && r.value.StoreKey() == k
  {
    if k in f.get then Failure(f.get[k])
    else if k in s then Success(s[k])
    else Failure(NotFound(k))
  }

  function Create(s: Objects, f: Faults, obj: Object): (o: Outcome)
    ensures Valid(s) ==> Valid(o.store)
  {
    var k := obj.StoreKey();
    if k.name == "" then Outcome(s, Some(NameRequired))
    else if k in f.create then Outcome(s, Some(f.create[k]))
    else if k in s then Outcome(s, Some(AlreadyExists(k)))
    else Outcome(s[k := obj], None)
  }

  function Update(s: Objects, f: Faults, obj: Object): (o: Outcome)
    ensures Valid(s) ==> Valid(o.store)
  {
    var k := obj.StoreKey();
    if k.name == "" then Outcome(s, Some(NameRequired))
    else if k in f.update then Outcome(s, Some(f.update[k]))
    else if k !in s then Outcome(s, Some(NotFound(k)))
    else Outcome(s[k := obj], None)
  }
}

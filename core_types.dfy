/** The parts of the Kubernetes core/v1 and meta/v1 objects that the controller reads or writes. */
module CoreTypes {
  import opened Wrappers

  newtype int32 = x: int | -0x8000_0000 <= x < 0x8000_0000

  /** An owner link; the garbage collector deletes the object when its owner goes. */
  datatype OwnerReference = OwnerReference(kind: string, name: string, uid: string, controller: bool)

  datatype ObjectMeta = ObjectMeta(
    namespace: string,
    name: string,
    uid: string,
    labels: map<string, string>,
    ownerReferences: seq<OwnerReference>)

  /** The metadata of a zero-valued object (`&corev1.ConfigMap{}` before anything is read into it). */
  const EmptyMeta := ObjectMeta("", "", "", map[], [])

  datatype EnvVar = EnvVar(name: string, value: string)

  datatype VolumeMount = VolumeMount(name: string, mountPath: string)

  datatype Container = Container(
    name: string,
    image: string,
    args: seq<string>,
    volumeMounts: seq<VolumeMount>,
    env: seq<EnvVar>)

  /** A volume whose files are the entries of the named ConfigMap. */
  datatype ConfigMapVolumeSource = ConfigMapVolumeSource(name: string, defaultMode: Option<int32>)

  /** Only the ConfigMap kind of volume source is used by the controller. */
  datatype Volume = Volume(name: string, configMap: Option<ConfigMapVolumeSource>)

  datatype ConfigMap = ConfigMap(meta: ObjectMeta, data: map<string, string>)

  /** `&corev1.ConfigMap{}`: no name, no namespace, no data. */
  const EmptyConfigMap := ConfigMap(EmptyMeta, map[])
}

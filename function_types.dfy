/** The Function resource (group runtime.kyma-project.io, version v1alpha1). */
module FunctionTypes {
  import opened CoreTypes

  /**
   * The desired state of a Function. `source` is the resource's `function` field
   * (the function's code); `timeout` is in seconds.
   */
  datatype FunctionSpec = FunctionSpec(
    source: string,
    functionContentType: string,
    size: string,
    runtime: string,
    timeout: int32,
    deps: string,
    env: seq<EnvVar>)

  datatype Function = Function(meta: ObjectMeta, spec: FunctionSpec)
}

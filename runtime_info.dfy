/** The operator-wide runtime configuration, as resolved from the controller's ConfigMap. */
module RuntimeConfig {
  /** One registered language runtime and the ConfigMap holding its Dockerfile. */
  datatype RuntimesSupported = RuntimesSupported(id: string, dockerFileName: string)

  datatype RuntimeInfo = RuntimeInfo(
    registryInfo: string,
    serviceAccount: string,
    availableRuntimes: seq<RuntimesSupported>)
  {
    /** The name of the ConfigMap holding the Dockerfile for `runtime`; "" when it is not registered. */
    function DockerFileConfigMapName(runtime: string): (name: string)
      ensures (exists i :: 0 <= i < |availableRuntimes| && availableRuntimes[i].id == runtime) ==>
                FirstMatch(availableRuntimes, runtime, name)
      ensures (forall i :: 0 <= i < |availableRuntimes| ==> availableRuntimes[i].id != runtime) ==> name == ""
    {
      Lookup(availableRuntimes, runtime)
    }
  }

  /** `name` is the Dockerfile ConfigMap of the first entry of `rts` registered as `runtime`. */
  ghost predicate FirstMatch(rts: seq<RuntimesSupported>, runtime: string, name: string) {
    exists i :: 0 <= i < |rts| && rts[i].id == runtime && rts[i].dockerFileName == name &&
      forall j :: 0 <= j < i ==> rts[j].id != runtime
  }

  function Lookup(rts: seq<RuntimesSupported>, runtime: string): (name: string)
    ensures (exists i :: 0 <= i < |rts| && rts[i].id == runtime) ==> FirstMatch(rts, runtime, name)
    ensures (forall i :: 0 <= i < |rts| ==> rts[i].id != runtime) ==> name == ""
  {
    if rts == [] then ""
    else if rts[0].id == runtime then rts[0].dockerFileName
    else
      var rest := Lookup(rts[1..], runtime);
      assert (exists i :: 0 <= i < |rts| && rts[i].id == runtime) ==>
               exists i :: 0 <= i < |rts[1..]| && rts[1..][i].id == runtime by {
        if exists i :: 0 <= i < |rts| && rts[i].id == runtime {
          var i :| 0 <= i < |rts| && rts[i].id == runtime;
          assert rts[1..][i - 1].id == runtime;
        }
      }
      assert FirstMatch(rts[1..], runtime, rest) ==> FirstMatch(rts, runtime, rest) by {
        if FirstMatch(rts[1..], runtime, rest) {
          var i :| 0 <= i < |rts[1..]| && rts[1..][i].id == runtime && rts[1..][i].dockerFileName == rest &&
                   forall j :: 0 <= j < i ==> rts[1..][j].id != runtime;
          forall j | 0 <= j < i + 1 ensures rts[j].id != runtime {
            if j > 0 { assert rts[j] == rts[1..][j - 1]; }
          }
          assert rts[i + 1] == rts[1..][i];
        }
      }
      rest
  }
}

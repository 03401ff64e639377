/**
 * The desired-state builder: from an image reference, a Function and the runtime
 * configuration, the spec of the Knative Service that builds the image with Kaniko
 * and then runs it.
 */
module ServingUtils {
  import opened Wrappers
  import opened CoreTypes
  import opened ServingTypes
  import opened FunctionTypes
  import opened RuntimeConfig

  const DockerfileVolume := "dockerfile-vol"
  const FunctionVolume := "func-vol"
  /** 0644 */
  const DefaultMode: int32 := 420
  const BuildStepName := "build-and-push"
  const BuilderImage := "gcr.io/kaniko-project/executor"
  const DockerfileArg := "--dockerfile=/workspace/Dockerfile"
  const DestinationFlag := "--destination="
  const DockerfileMountPath := "/workspace"
  const SourceMountPath := "/src"

  /** The environment of every revision; it is the same whatever the Function's timeout, size, runtime or env. */
  const RevisionEnv: seq<EnvVar> := [
    EnvVar("FUNC_HANDLER", "main"),
    EnvVar("MOD_NAME", "handler"),
    EnvVar("FUNC_TIMEOUT", "180"),
    EnvVar("FUNC_RUNTIME", "nodejs8"),
    EnvVar("FUNC_MEMORY_LIMIT", "128Mi"),
    EnvVar("FUNC_PORT", "8080"),
    EnvVar("NODE_PATH", "$(KUBELESS_INSTALL_VOLUME)/node_modules")
  ]

  predicate IsDestinationArg(arg: string) {
    |DestinationFlag| <= |arg| && arg[..|DestinationFlag|] == DestinationFlag
  }

  /** The image a Kaniko argument list pushes to: what follows the first `--destination=`. */
  function DestinationOf(args: seq<string>): (image: Option<string>)
    ensures image.Some? ==> DestinationFlag + image.value in args
    ensures image.None? ==> forall i :: 0 <= i < |args| ==> !IsDestinationArg(args[i])
  {
    if args == [] then None
    else if IsDestinationArg(args[0]) then
      assert args[0] == DestinationFlag + args[0][|DestinationFlag|..];
      Some(args[0][|DestinationFlag|..])
    else
      var rest := DestinationOf(args[1..]);
      assert forall a :: a in args[1..] ==> a in args;
      rest
  }

  /** The mount names of `c` that are among the names of `volumes`. */
  ghost predicate MountsDeclared(c: Container, volumes: seq<Volume>) {
    forall m :: m in c.volumeMounts ==> exists v :: v in volumes && v.name == m.name
  }

  function ConfigMapVolume(name: string, configMapName: string): Volume {
    Volume(name, Some(ConfigMapVolumeSource(configMapName, Some(DefaultMode))))
  }

  /** The single build step: Kaniko, building /workspace/Dockerfile and pushing to `imageName`. */
  function GetBuildContainer(imageName: string, fn: Function, ri: RuntimeInfo): (c: Container)
    ensures c.name == BuildStepName && c.image == BuilderImage
    ensures |c.args| == 2 && c.args[0] == DockerfileArg
    ensures DestinationOf(c.args) == Some(imageName)
    ensures c.volumeMounts == [VolumeMount(DockerfileVolume, DockerfileMountPath),
                               VolumeMount(FunctionVolume, SourceMountPath)]
  {
    var destination := DestinationFlag + imageName;
    assert !IsDestinationArg(DockerfileArg) by {
      assert DockerfileArg[3] != DestinationFlag[3];
    }
    assert destination[..|DestinationFlag|] == DestinationFlag;
    assert destination[|DestinationFlag|..] == imageName;
    Container(BuildStepName, BuilderImage, [DockerfileArg, destination],
              [VolumeMount(DockerfileVolume, DockerfileMountPath), VolumeMount(FunctionVolume, SourceMountPath)],
              [])
  }

  /** The desired Service spec for `fn`, whose image is to be `imageName`. */
  function GetServiceSpec(imageName: string, fn: Function, ri: RuntimeInfo): (s: ServiceSpec)
    ensures s.HasBuild()
    ensures s.Build().serviceAccountName == ri.serviceAccount
    ensures s.Build().steps == [GetBuildContainer(imageName, fn, ri)]
    ensures s.Build().volumes == [ConfigMapVolume(DockerfileVolume, ri.DockerFileConfigMapName(fn.spec.runtime)),
                                  ConfigMapVolume(FunctionVolume, fn.meta.name)]
    ensures MountsDeclared(s.Build().steps[0], s.Build().volumes)
    ensures s.RunContainer().image == imageName
    ensures DestinationOf(s.Build().steps[0].args) == Some(s.RunContainer().image)
    ensures s.RunContainer().env == RevisionEnv
  {
    var volumes := [ConfigMapVolume(DockerfileVolume, ri.DockerFileConfigMapName(fn.spec.runtime)),
                    ConfigMapVolume(FunctionVolume, fn.meta.name)];
    var build := BuildSpec(ri.serviceAccount, [GetBuildContainer(imageName, fn, ri)], volumes);
    var run := Container("", imageName, [], [], RevisionEnv);
    ServiceSpec(Some(RunLatestType(ConfigurationSpec(Some(build), RevisionSpec(run)))))
  }

  /**
   * Nothing else is set: the run container has no name, arguments or mounts, and the
   * build step has no environment.
   */
  lemma ContainersFullyDetermined(imageName: string, fn: Function, ri: RuntimeInfo)
    ensures GetServiceSpec(imageName, fn, ri).RunContainer() == Container("", imageName, [], [], RevisionEnv)
    ensures GetBuildContainer(imageName, fn, ri).env == []
    ensures GetBuildContainer(imageName, fn, ri).args == [DockerfileArg, DestinationFlag + imageName]
  {
  }

  /** The spec reads nothing of the Function but its name and its runtime. */
  lemma SpecDependsOnlyOnNameAndRuntime(imageName: string, fn1: Function, fn2: Function, ri: RuntimeInfo)
    requires fn1.meta.name == fn2.meta.name && fn1.spec.runtime == fn2.spec.runtime
    ensures GetServiceSpec(imageName, fn1, ri) == GetServiceSpec(imageName, fn2, ri)
  {
  }

  /** The run environment depends on none of the three inputs. */
  lemma RunEnvIsConstant(image1: string, fn1: Function, ri1: RuntimeInfo,
                         image2: string, fn2: Function, ri2: RuntimeInfo)
    ensures GetServiceSpec(image1, fn1, ri1).RunContainer().env == GetServiceSpec(image2, fn2, ri2).RunContainer().env
  {
  }

  /** Distinct image references give distinct specs: the image can be read back from the build step. */
  lemma SpecDeterminesImage(image1: string, image2: string, fn: Function, ri: RuntimeInfo)
    requires GetServiceSpec(image1, fn, ri) == GetServiceSpec(image2, fn, ri)
    ensures image1 == image2
  {
  }
}

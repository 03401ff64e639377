/** The subset of the Knative Serving and Build v1alpha1 types that the controller produces. */
module ServingTypes {
  import opened Wrappers
  import opened CoreTypes

  /** How to build the image: the service account the build runs as, its steps and the volumes they mount. */
  datatype BuildSpec = BuildSpec(serviceAccountName: string, steps: seq<Container>, volumes: seq<Volume>)

  datatype RevisionSpec = RevisionSpec(container: Container)

  datatype ConfigurationSpec = ConfigurationSpec(build: Option<BuildSpec>, revisionTemplate: RevisionSpec)

  datatype RunLatestType = RunLatestType(configuration: ConfigurationSpec)

  datatype ServiceSpec = ServiceSpec(runLatest: Option<RunLatestType>) {
    predicate HasBuild() {
      runLatest.Some? && runLatest.value.configuration.build.Some?
    }

    function Build(): BuildSpec
      requires HasBuild()
    {
      runLatest.value.configuration.build.value
    }

    /** The container every revision runs. */
    function RunContainer(): Container
      requires runLatest.Some?
    {
      runLatest.value.configuration.revisionTemplate.container
    }
  }

  /** A serving.knative.dev Service. */
  datatype Service = Service(meta: ObjectMeta, spec: ServiceSpec)

  /** `&servingv1alpha1.Service{}`: nothing read into it yet. */
  const EmptyService := Service(EmptyMeta, ServiceSpec(None))
}

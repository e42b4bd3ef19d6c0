/**
 * The parts of a truss configuration that the serving image builder reads.
 * Everything is an immutable value except `Build.arguments`, which the VLLM
 * path pops the `endpoint` key from in place.
 */
module BuildConfig {
  import opened Wrappers
  import opened BuildArgs

  /** The serving backend: the generic truss server or one of the two specialised engines. */
  datatype ModelServer = TrussServer | TGI | VLLM

  /**
   * `config.build`: the backend choice and its free-form argument map. The map is a Python
   * dict, so its keys are distinct (`Valid`).
   */
  class Build {
    const modelServer: ModelServer
    var arguments: Args

    ghost predicate Valid()
      reads this
    {
      DistinctKeys(arguments)
    }

    constructor (modelServer: ModelServer, arguments: Args)
      requires DistinctKeys(arguments)
      ensures Valid()
      ensures this.modelServer == modelServer && this.arguments == arguments
    {
      this.modelServer := modelServer;
      this.arguments := arguments;
    }
  }

  /** A custom base image to build on instead of the truss base image. */
  datatype BaseImage = BaseImage(image: string)

  /** One HuggingFace repository to pre-fetch into the image's cache. */
  datatype HfModel = HfModel(
    repoId: string,
    revision: Option<string>,
    allowPatterns: Option<seq<string>>,
    ignorePatterns: Option<seq<string>>)

  datatype TrussConfig = TrussConfig(
    build: Build,
    secrets: map<string, string>,
    liveReload: bool,
    baseImage: Option<BaseImage>,
    /** `hf_cache`: unset, or the list of declared models */
    hfCache: Option<seq<HfModel>>,
    pythonVersion: string,
    useGpu: bool,
    dataDir: string,
    bundledPackagesDir: string)

  /** The configuration as it reads at one moment, with the argument map taken at that moment. */
  datatype ConfigView = ConfigView(config: TrussConfig, arguments: Args)

  /**
   * What `TrussSpec` supplies: the config, the truss directory's files (relative paths),
   * the model framework's name, and the requirements and system-packages texts it derives.
   */
  datatype TrussSpec = TrussSpec(
    config: TrussConfig,
    trussFiles: set<string>,
    modelFrameworkName: string,
    requirementsTxt: string,
    systemPackagesTxt: string)
}

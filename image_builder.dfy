/**
 * The serving image builder: which files a build of a truss puts into the image
 * build directory, and which variables the generated pieces are rendered from.
 *
 * The two specialised backends (TGI, VLLM) write exactly three rendered files.
 * Every other backend takes the generic path: copy the truss, rewrite its config,
 * copy the server code trees, write the requirement manifests, render the Dockerfile.
 * Each operation is specified by a function that lists the steps it performs;
 * the lemmas state what those step lists promise.
 */
module ImageBuilder {
  import opened Wrappers
  import opened BuildArgs
  import opened BuildConfig
  import opened BuildDirectory

  // Fixed names in the build directory. The first four are defined beside the builder;
  // the others are the values of the truss package's shared path constants.
  const BuildServerDirName := "server"
  const BuildControlServerDirName := "control"
  const ConfigFile := "config.yaml"
  const HfAccessTokenSecretName := "hf_access_token"
  const SharedCodeDirName := "shared"
  const CacheWarmerFile := "cache_warmer.py"
  const BaseServerRequirementsFile := "base_server_requirements.txt"
  const ServerRequirementsFile := "server_requirements.txt"
  const RequirementsFile := "requirements.txt"
  const SystemPackagesFile := "system_packages.txt"
  const DockerfileName := "Dockerfile"
  const ProxyConfFile := "proxy.conf"
  const SupervisordConfFile := "supervisord.conf"
  const ServerSharedDir := BuildServerDirName + "/" + SharedCodeDirName
  const ControlSharedDir := BuildControlServerDirName + "/control/" + SharedCodeDirName

  /**
   * The collaborators the builder calls but this model does not define: the HuggingFace
   * listing and filtering calls, the emptiness test on a file, the python version and
   * base image naming helpers, the pinned base image version tag, and the content hash
   * of the truss directory.
   */
  datatype Env = Env(
    listRepoFiles: (string, Option<string>) -> seq<string>,
    filterRepoObjects: (seq<string>, Option<seq<string>>, Option<seq<string>>) -> seq<string>,
    fileIsNotEmpty: Content -> bool,
    toDottedPythonVersion: string -> string,
    trussBaseImageName: string -> string,
    trussBaseImageTag: (string, bool, string) -> string,
    baseImageVersionTag: string,
    trussHash: string)

  /** `config.secrets.get("hf_access_token")`. */
  function HfAccessToken(config: TrussConfig): Option<string> {
    if HfAccessTokenSecretName in config.secrets then Some(config.secrets[HfAccessTokenSecretName]) else None
  }

  // ===========================================================================
  // TGI
  // ===========================================================================

  /** Three writes in a row, as both specialised backends perform them. */
  lemma ThreePuts(files: map<string, Content>, s: seq<Step>)
    requires |s| == 3 && s[0].Put? && s[1].Put? && s[2].Put?
    ensures Apply(files, s) == files[s[0].target := s[0].content][s[1].target := s[1].content][s[2].target := s[2].content]
    ensures Targets(s) == [s[0].target, s[1].target, s[2].target]
  {
    StepSnoc(files, s[..2], s[2]);
    StepSnoc(files, s[..1], s[1]);
    StepSnoc(files, [], s[0]);
    assert s[..2] == s[..1] + [s[1]] && s[..1] == [] + [s[0]] && s == s[..2] + [s[2]];
  }

  /** What `create_tgi_build_dir` writes, given the argument map it copies. */
  function TgiSteps(config: TrussConfig, args: Args): seq<Step> {
    [ Put(DockerfileName, Rendered(TgiDockerfile, map["hf_access_token" := VOptText(HfAccessToken(config))])),
      Put(ProxyConfFile, Rendered(TgiProxyConf, map["endpoint" := VText(TgiEndpoint(args))])),
      Put(SupervisordConfFile,
            Rendered(TgiSupervisordConf, map["extra_args" := VText(ExtraArgs(Without(args, EndpointKey)))])) ]
  }

  /**
   * The TGI build: three files, in order; the proxy forwards to the given endpoint or to
   * `generate_stream`; the supervisor's flags are those of every other argument.
   */
  lemma TgiPlan(config: TrussConfig, args: Args, files: map<string, Content>)
    ensures Targets(TgiSteps(config, args)) == [DockerfileName, ProxyConfFile, SupervisordConfFile]
    ensures Apply(files, TgiSteps(config, args)).Keys == files.Keys + {DockerfileName, ProxyConfFile, SupervisordConfFile}
    ensures Apply(files, TgiSteps(config, args))[DockerfileName] ==
            Rendered(TgiDockerfile, map["hf_access_token" := VOptText(HfAccessToken(config))])
    ensures Apply(files, TgiSteps(config, args))[ProxyConfFile] ==
            Rendered(TgiProxyConf, map["endpoint" := VText(TgiEndpoint(args))])
    ensures Apply(files, TgiSteps(config, args))[SupervisordConfFile] ==
            Rendered(TgiSupervisordConf, map["extra_args" := VText(ExtraArgs(Without(args, EndpointKey)))])
  {
    var s := TgiSteps(config, args);
    ThreePuts(files, s);
  }

  method CreateTgiBuildDir(config: TrussConfig, dir: BuildDir)
    modifies dir
    ensures dir.created
    ensures config.build.arguments == old(config.build.arguments)
    ensures dir.files == Apply(old(dir.files), TgiSteps(config, config.build.arguments))
    ensures dir.writes == old(dir.writes) + Targets(TgiSteps(config, config.build.arguments))
  {
    if !dir.created {
      dir.MakeDirs();
    }
    ghost var files0 := old(dir.files);
    var hfAccessToken := HfAccessToken(config);
    var dockerfile := Put(DockerfileName, Rendered(TgiDockerfile, map["hf_access_token" := VOptText(hfAccessToken)]));
    dir.Perform(dockerfile);
    StepSnoc(files0, [], dockerfile);

    var buildArgs := config.build.arguments;  // a copy: the config's own map is left as it is
    var endpoint := TgiEndpoint(buildArgs);
    buildArgs := Without(buildArgs, EndpointKey);
    var proxy := Put(ProxyConfFile, Rendered(TgiProxyConf, map["endpoint" := VText(endpoint)]));
    dir.Perform(proxy);
    StepSnoc(files0, [dockerfile], proxy);

    var extraArgs := ExtraArgs(buildArgs);
    var supervisord := Put(SupervisordConfFile, Rendered(TgiSupervisordConf, map["extra_args" := VText(extraArgs)]));
    dir.Perform(supervisord);
    StepSnoc(files0, [dockerfile, proxy], supervisord);
    assert [dockerfile] + [proxy] + [supervisord] == TgiSteps(config, config.build.arguments);
  }

  // ===========================================================================
  // VLLM
  // ===========================================================================

  /** What `create_vllm_build_dir` writes, or the `KeyError` it raises first. */
  function VllmSteps(config: TrussConfig, args: Args): Result<seq<Step>, BuildError> {
    match VllmServerEndpoint(Lookup(args, EndpointKey))
    case Failure(e) => Failure(e)
    case Success(serverEndpoint) =>
      Success([
        Put(DockerfileName, Rendered(VllmDockerfile, map["hf_access_token" := VOptText(HfAccessToken(config))])),
        Put(ProxyConfFile, Rendered(VllmProxyConf, map["server_endpoint" := VText(serverEndpoint)])),
        Put(SupervisordConfFile,
              Rendered(VllmSupervisordConf, map["extra_args" := VText(ExtraArgs(Without(args, EndpointKey)))])) ])
  }

  /**
   * The VLLM build succeeds iff `endpoint` names one of the two server endpoints; it then
   * writes three files and nothing else: the Dockerfile with the HF access token, the proxy
   * pointing at the endpoint's path, and the supervisor with the flags of every other argument.
   */
  lemma VllmPlan(config: TrussConfig, args: Args, files: map<string, Content>)
    ensures VllmSteps(config, args).Success? <==>
            Lookup(args, EndpointKey) == Some("Completions") || Lookup(args, EndpointKey) == Some("ChatCompletions")
    ensures Lookup(args, EndpointKey).None? ==> VllmSteps(config, args) == Failure(MissingEndpoint)
    ensures VllmSteps(config, args).Success? ==>
              Targets(VllmSteps(config, args).value) == [DockerfileName, ProxyConfFile, SupervisordConfFile] &&
              Apply(files, VllmSteps(config, args).value).Keys ==
                files.Keys + {DockerfileName, ProxyConfFile, SupervisordConfFile}
    ensures VllmSteps(config, args).Success? ==>
              VllmSteps(config, args).value[0] ==
                Put(DockerfileName, Rendered(VllmDockerfile, map["hf_access_token" := VOptText(HfAccessToken(config))]))
    ensures VllmSteps(config, args).Success? ==>
              VllmSteps(config, args).value[1] ==
                Put(ProxyConfFile, Rendered(VllmProxyConf,
                    map["server_endpoint" := VText(VllmServerEndpoint(Lookup(args, EndpointKey)).value)]))
    ensures VllmSteps(config, args).Success? ==>
              VllmSteps(config, args).value[1].content.vars["server_endpoint"] ==
                VText(if Lookup(args, EndpointKey) == Some("Completions") then "/v1/completions"
                      else "/v1/chat/completions")
    ensures VllmSteps(config, args).Success? ==>
              VllmSteps(config, args).value[2] ==
                Put(SupervisordConfFile,
                    Rendered(VllmSupervisordConf, map["extra_args" := VText(ExtraArgs(Without(args, EndpointKey)))]))
  {
    if VllmSteps(config, args).Success? {
      ThreePuts(files, VllmSteps(config, args).value);
    }
  }

  method CreateVllmBuildDir(config: TrussConfig, dir: BuildDir) returns (r: Outcome<BuildError>)
    modifies dir, config.build
    ensures dir.created
    ensures config.build.arguments == Without(old(config.build.arguments), EndpointKey)
    ensures old(config.build.Valid()) ==> config.build.Valid()
    ensures match VllmSteps(config, old(config.build.arguments))
            case Failure(e) => r == Fail(e) && dir.files == old(dir.files) && dir.writes == old(dir.writes)
            case Success(steps) =>
              r == Pass && dir.files == Apply(old(dir.files), steps) && dir.writes == old(dir.writes) + Targets(steps)
  {
    if !dir.created {
      dir.MakeDirs();
    }
    ghost var files0 := old(dir.files);
    ghost var args0 := config.build.arguments;
    // `arguments.pop("endpoint")`: the key is gone before the lookup can fail
    var endpointName := Lookup(config.build.arguments, EndpointKey);
    config.build.arguments := Without(config.build.arguments, EndpointKey);
    var serverEndpoint := VllmServerEndpoint(endpointName);
    if serverEndpoint.Failure? {
      WithoutKeepsDistinct(args0, EndpointKey);
      return Fail(serverEndpoint.error);
    }
    var hfAccessToken := HfAccessToken(config);
    var dockerfile := Put(DockerfileName, Rendered(VllmDockerfile, map["hf_access_token" := VOptText(hfAccessToken)]));
    dir.Perform(dockerfile);
    StepSnoc(files0, [], dockerfile);

    var proxy := Put(ProxyConfFile, Rendered(VllmProxyConf, map["server_endpoint" := VText(serverEndpoint.value)]));
    dir.Perform(proxy);
    StepSnoc(files0, [dockerfile], proxy);

    var extraArgs := ExtraArgs(config.build.arguments);
    var supervisord := Put(SupervisordConfFile, Rendered(VllmSupervisordConf, map["extra_args" := VText(extraArgs)]));
    dir.Perform(supervisord);
    StepSnoc(files0, [dockerfile, proxy], supervisord);
    assert [dockerfile] + [proxy] + [supervisord] == [dockerfile, proxy, supervisord];
    assert VllmSteps(config, args0) == Success([dockerfile, proxy, supervisord]);
    WithoutKeepsDistinct(args0, EndpointKey);
    r := Pass;
  }

  // ===========================================================================
  // HuggingFace cache manifest
  // ===========================================================================

  /** `{files: filter_repo_objects(list_repo_files(repo_id, revision), allow, ignore), revision}`. */
  function ModelEntry(model: HfModel, env: Env): ModelFiles {
    ModelFiles(env.filterRepoObjects(env.listRepoFiles(model.repoId, model.revision),
                                     model.allowPatterns, model.ignorePatterns),
               model.revision)
  }

  /** The `model_files` dict after processing `models` in order. */
  function ManifestOf(models: seq<HfModel>, env: Env): map<string, ModelFiles> {
    if models == [] then map[]
    else
      var last := models[|models| - 1];
      ManifestOf(models[..|models| - 1], env)[last.repoId := ModelEntry(last, env)]
  }

  /** The manifest has one key per declared repository id. */
  lemma {:induction false} ManifestKeys(models: seq<HfModel>, env: Env, repoId: string)
    ensures repoId in ManifestOf(models, env) <==> exists i :: 0 <= i < |models| && models[i].repoId == repoId
  {
    if models != [] {
      var init := models[..|models| - 1];
      ManifestKeys(init, env, repoId);
      assert forall i :: 0 <= i < |init| ==> init[i] == models[i];
    }
  }

  /** A repository declared more than once keeps the entry of its last declaration. */
  lemma {:induction false} ManifestLastWins(models: seq<HfModel>, env: Env, j: nat)
    requires j < |models|
    requires forall k :: j < k < |models| ==> models[k].repoId != models[j].repoId
    ensures models[j].repoId in ManifestOf(models, env)
    ensures ManifestOf(models, env)[models[j].repoId] == ModelEntry(models[j], env)
  {
    var init := models[..|models| - 1];
    if j < |models| - 1 {
      assert forall k :: j < k < |init| ==> init[k] == models[k];
      ManifestLastWins(init, env, j);
    }
  }

  /** The `for model in config.hf_cache.models` loop. */
  method ResolveHfCacheModels(models: seq<HfModel>, env: Env) returns (modelFiles: map<string, ModelFiles>)
    ensures modelFiles == ManifestOf(models, env)
  {
    modelFiles := map[];
    for i := 0 to |models|
      invariant modelFiles == ManifestOf(models[..i], env)
    {
      var model := models[i];
      var repoId := model.repoId;
      var revision := model.revision;
      var filteredRepoFiles := env.filterRepoObjects(env.listRepoFiles(repoId, revision),
                                                     model.allowPatterns, model.ignorePatterns);
      modelFiles := modelFiles[repoId := ModelFiles(filteredRepoFiles, revision)];
      assert models[..i + 1][..i] == models[..i];
    }
    assert models[..|models|] == models;
  }

  /** The manifest the Dockerfile receives: empty unless an HF cache is configured. */
  function ModelFilesOf(spec: TrussSpec, env: Env): map<string, ModelFiles> {
    match spec.config.hfCache
    case None => map[]
    case Some(models) => ManifestOf(models, env)
  }

  // ===========================================================================
  // Dockerfile
  // ===========================================================================

  /** The base image: the configured one, else the truss server image named from the python version and GPU flag. */
  function BaseImageNameAndTag(config: TrussConfig, env: Env): string {
    if config.baseImage.Some? then config.baseImage.value.image
    else
      var pythonVersion := env.toDottedPythonVersion(config.pythonVersion);
      env.trussBaseImageName("server") + ":" +
      env.trussBaseImageTag(pythonVersion, config.useGpu, env.baseImageVersionTag)
  }

  /**
   * The configured base image wins; otherwise the string is `name:tag`, and splitting it at
   * its first `:` gives back the server image's name and the tag built from the dotted python
   * version, the GPU flag and the pinned version tag.
   */
  lemma BaseImageChoice(config: TrussConfig, env: Env)
    ensures config.baseImage.Some? ==> BaseImageNameAndTag(config, env) == config.baseImage.value.image
    ensures config.baseImage.None? && ':' !in env.trussBaseImageName("server") ==>
              var s := BaseImageNameAndTag(config, env);
              var i := IndexOf(s, ':');
              s[..i] == env.trussBaseImageName("server") &&
              s[i + 1..] == env.trussBaseImageTag(env.toDottedPythonVersion(config.pythonVersion),
                                                  config.useGpu, env.baseImageVersionTag)
  {
    if config.baseImage.None? && ':' !in env.trussBaseImageName("server") {
      var name := env.trussBaseImageName("server");
      var tag := env.trussBaseImageTag(env.toDottedPythonVersion(config.pythonVersion),
                                       config.useGpu, env.baseImageVersionTag);
      FirstIndex(name, ':', tag);
      var s := name + [':'] + tag;
      assert s == BaseImageNameAndTag(config, env);
      assert s[..|name|] == name && s[|name| + 1..] == tag;
    }
  }

  /** `file_is_not_empty(build_dir / path)`: a missing file counts as empty. */
  function FileIsNotEmpty(files: map<string, Content>, path: string, env: Env): bool {
    path in files && env.fileIsNotEmpty(files[path])
  }

  /** What `_render_dockerfile` writes into a directory holding `files`. */
  function DockerfileStep(config: TrussConfig, args: Args, files: map<string, Content>,
                          shouldInstallServerRequirements: bool, modelFiles: map<string, ModelFiles>,
                          useHfSecret: bool, env: Env): Step
  {
    Put(DockerfileName, ServerDockerfile(ServerDockerfileVars(
      shouldInstallServerRequirements := shouldInstallServerRequirements,
      baseImageNameAndTag := BaseImageNameAndTag(config, env),
      shouldInstallSystemRequirements := FileIsNotEmpty(files, SystemPackagesFile, env),
      shouldInstallRequirements := FileIsNotEmpty(files, RequirementsFile, env),
      config := ConfigView(config, args),
      pythonVersion := env.toDottedPythonVersion(config.pythonVersion),
      liveReload := config.liveReload,
      dataDirExists := Exists(files, config.dataDir),
      bundledPackagesDirExists := Exists(files, config.bundledPackagesDir),
      trussHash := env.trussHash,
      models := modelFiles,
      useHfSecret := useHfSecret)))
  }

  // ===========================================================================
  // The generic build directory
  // ===========================================================================

  /** `copy_tree_path(truss_dir, build_dir)`: every file of the truss at its own relative path. */
  function TrussCopy(spec: TrussSpec): Step {
    PutTree("", map p | p in spec.trussFiles :: Copied(TrussFile(p)))
  }

  /** `file_is_not_empty` on the model framework's own server requirements file. */
  function ServerRequirementsNonEmpty(spec: TrussSpec, env: Env): bool {
    env.fileIsNotEmpty(Copied(FrameworkRequirements(spec.modelFrameworkName)))
  }

  /** The copy of the truss itself, then its config rewritten with the build arguments in force. */
  function TrussPart(spec: TrussSpec, args: Args): seq<Step> {
    [TrussCopy(spec), Put(ConfigFile, ConfigYaml(ConfigView(spec.config, args)))]
  }

  /** The cache warmer script, only when an HF cache is configured. */
  function CacheWarmerPart(config: TrussConfig): seq<Step> {
    if config.hfCache.Some? then [Put(CacheWarmerFile, Copied(CacheWarmerScript))] else []
  }

  /** The server code and the shared code below it. */
  function ServerPart(): seq<Step> {
    [Put(BuildServerDirName, Copied(ServerCode)), Put(ServerSharedDir, Copied(SharedCode))]
  }

  /** The control server and the shared code below it, only under live reload. */
  function ControlPart(config: TrussConfig): seq<Step> {
    if config.liveReload then
      [Put(BuildControlServerDirName, Copied(ControlServerCode)), Put(ControlSharedDir, Copied(SharedCode))]
    else []
  }

  /** The base server requirements, only when a base image is set. */
  function BaseRequirementsPart(config: TrussConfig): seq<Step> {
    if config.baseImage.Some? then [Put(BaseServerRequirementsFile, Copied(BaseServerRequirements))] else []
  }

  /** The model framework's server requirements, only when that file is not empty. */
  function ServerRequirementsPart(spec: TrussSpec, env: Env): seq<Step> {
    if ServerRequirementsNonEmpty(spec, env) then
      [Put(ServerRequirementsFile, Copied(FrameworkRequirements(spec.modelFrameworkName)))]
    else []
  }

  /** The user requirements and system packages, written from the spec's texts. */
  function ManifestsPart(spec: TrussSpec): seq<Step> {
    [Put(RequirementsFile, Text(spec.requirementsTxt)), Put(SystemPackagesFile, Text(spec.systemPackagesTxt))]
  }

  /** The generic path's writes and copies before the Dockerfile, in order. */
  function PreDockerfileSteps(spec: TrussSpec, args: Args, env: Env): seq<Step> {
    TrussPart(spec, args) + CacheWarmerPart(spec.config) + ServerPart() + ControlPart(spec.config)
    + BaseRequirementsPart(spec.config) + ServerRequirementsPart(spec, env) + ManifestsPart(spec)
  }

  /** Every write and copy of the generic path, starting from a directory holding `files`. */
  function GenericSteps(spec: TrussSpec, args: Args, files: map<string, Content>, useHfSecret: bool, env: Env): seq<Step> {
    var pre := PreDockerfileSteps(spec, args, env);
    pre + [DockerfileStep(spec.config, args, Apply(files, pre), ServerRequirementsNonEmpty(spec, env),
                          ModelFilesOf(spec, env), useHfSecret, env)]
  }

  /** The paths the generic path writes before the Dockerfile, given its four decisions. */
  function PreDockerfileTargets(hfCache: bool, liveReload: bool, baseImage: bool, serverReqs: bool): seq<string> {
    ["", ConfigFile]
    + (if hfCache then [CacheWarmerFile] else [])
    + [BuildServerDirName, ServerSharedDir]
    + (if liveReload then [BuildControlServerDirName, ControlSharedDir] else [])
    + (if baseImage then [BaseServerRequirementsFile] else [])
    + (if serverReqs then [ServerRequirementsFile] else [])
    + [RequirementsFile, SystemPackagesFile]
  }

  lemma PreDockerfileTargetsFixed(hfCache: bool, liveReload: bool, baseImage: bool, serverReqs: bool)
    ensures var ts := PreDockerfileTargets(hfCache, liveReload, baseImage, serverReqs);
      && DockerfileName !in ts
      && ConfigFile in ts && BuildServerDirName in ts && ServerSharedDir in ts
      && RequirementsFile in ts && SystemPackagesFile in ts
  {
  }

  lemma PreDockerfileTargetsControl(hfCache: bool, liveReload: bool, baseImage: bool, serverReqs: bool)
    ensures var ts := PreDockerfileTargets(hfCache, liveReload, baseImage, serverReqs);
      && (BuildControlServerDirName in ts <==> liveReload)
      && (ControlSharedDir in ts <==> liveReload)
  {
  }

  lemma PreDockerfileTargetsOptional(hfCache: bool, liveReload: bool, baseImage: bool, serverReqs: bool)
    ensures var ts := PreDockerfileTargets(hfCache, liveReload, baseImage, serverReqs);
      && (BaseServerRequirementsFile in ts <==> baseImage)
      && (CacheWarmerFile in ts <==> hfCache)
      && (ServerRequirementsFile in ts <==> serverReqs)
  {
  }

  lemma PreDockerfileShape(spec: TrussSpec, args: Args, env: Env)
    ensures Targets(PreDockerfileSteps(spec, args, env)) ==
            PreDockerfileTargets(spec.config.hfCache.Some?, spec.config.liveReload,
                                 spec.config.baseImage.Some?, ServerRequirementsNonEmpty(spec, env))
  {
    var c := spec.config;
    var p1 := TrussPart(spec, args);
    var p2 := p1 + CacheWarmerPart(c);
    var p3 := p2 + ServerPart();
    var p4 := p3 + ControlPart(c);
    var p5 := p4 + BaseRequirementsPart(c);
    var p6 := p5 + ServerRequirementsPart(spec, env);
    assert Targets(p1) == ["", ConfigFile];
    assert Targets(CacheWarmerPart(c)) == if c.hfCache.Some? then [CacheWarmerFile] else [];
    assert Targets(ServerPart()) == [BuildServerDirName, ServerSharedDir];
    assert Targets(ControlPart(c)) == if c.liveReload then [BuildControlServerDirName, ControlSharedDir] else [];
    assert Targets(BaseRequirementsPart(c)) == if c.baseImage.Some? then [BaseServerRequirementsFile] else [];
    assert Targets(ServerRequirementsPart(spec, env)) ==
           if ServerRequirementsNonEmpty(spec, env) then [ServerRequirementsFile] else [];
    assert Targets(ManifestsPart(spec)) == [RequirementsFile, SystemPackagesFile];
    TargetsConcat(p6, ManifestsPart(spec));
    TargetsConcat(p5, ServerRequirementsPart(spec, env));
    TargetsConcat(p4, BaseRequirementsPart(c));
    TargetsConcat(p3, ControlPart(c));
    TargetsConcat(p2, ServerPart());
    TargetsConcat(p1, CacheWarmerPart(c));
  }

  /** The generic path's log: what it wrote before the Dockerfile, then the Dockerfile. */
  lemma GenericTargets(spec: TrussSpec, args: Args, files: map<string, Content>, useHfSecret: bool, env: Env)
    ensures Targets(GenericSteps(spec, args, files, useHfSecret, env)) ==
            PreDockerfileTargets(spec.config.hfCache.Some?, spec.config.liveReload,
                                 spec.config.baseImage.Some?, ServerRequirementsNonEmpty(spec, env))
            + [DockerfileName]
  {
    var pre := PreDockerfileSteps(spec, args, env);
    PreDockerfileShape(spec, args, env);
    TargetsSnoc(pre, DockerfileStep(spec.config, args, Apply(files, pre), ServerRequirementsNonEmpty(spec, env),
                                    ModelFilesOf(spec, env), useHfSecret, env));
  }

  /**
   * The generic file rules: the server trees are always copied; the control trees iff live
   * reload is on; the base server requirements iff a base image is set; the cache warmer iff
   * an HF cache is configured; the framework's server requirements iff that file is not empty.
   */
  lemma GenericLayout(spec: TrussSpec, args: Args, files: map<string, Content>, useHfSecret: bool, env: Env)
    ensures var ts := Targets(GenericSteps(spec, args, files, useHfSecret, env));
      && ConfigFile in ts && BuildServerDirName in ts && ServerSharedDir in ts
      && (BuildControlServerDirName in ts <==> spec.config.liveReload)
      && (ControlSharedDir in ts <==> spec.config.liveReload)
      && (BaseServerRequirementsFile in ts <==> spec.config.baseImage.Some?)
      && (CacheWarmerFile in ts <==> spec.config.hfCache.Some?)
      && (ServerRequirementsFile in ts <==> ServerRequirementsNonEmpty(spec, env))
  {
    var hf, lr, bi, sr := spec.config.hfCache.Some?, spec.config.liveReload,
                          spec.config.baseImage.Some?, ServerRequirementsNonEmpty(spec, env);
    GenericTargets(spec, args, files, useHfSecret, env);
    PreDockerfileTargetsFixed(hf, lr, bi, sr);
    PreDockerfileTargetsControl(hf, lr, bi, sr);
    PreDockerfileTargetsOptional(hf, lr, bi, sr);
  }

  /** The requirement manifests are written before the Dockerfile, and the Dockerfile is written last. */
  lemma GenericDockerfileLast(spec: TrussSpec, args: Args, files: map<string, Content>, useHfSecret: bool, env: Env)
    ensures var ts := Targets(GenericSteps(spec, args, files, useHfSecret, env));
      && |ts| > 0 && ts[|ts| - 1] == DockerfileName && DockerfileName !in ts[..|ts| - 1]
      && RequirementsFile in ts[..|ts| - 1] && SystemPackagesFile in ts[..|ts| - 1]
  {
    var hf, lr, bi, sr := spec.config.hfCache.Some?, spec.config.liveReload,
                          spec.config.baseImage.Some?, ServerRequirementsNonEmpty(spec, env);
    GenericTargets(spec, args, files, useHfSecret, env);
    PreDockerfileTargetsFixed(hf, lr, bi, sr);
    var ts := PreDockerfileTargets(hf, lr, bi, sr) + [DockerfileName];
    assert ts[..|ts| - 1] == PreDockerfileTargets(hf, lr, bi, sr);
  }

  /** The rewritten config replaces the truss's own, and every file of the truss is present. */
  lemma PreDockerfileConfig(spec: TrussSpec, args: Args, files: map<string, Content>, env: Env)
    ensures var out := Apply(files, PreDockerfileSteps(spec, args, env));
      && ConfigFile in out && out[ConfigFile] == ConfigYaml(ConfigView(spec.config, args))
      && spec.trussFiles <= out.Keys
  {
    var c, k := spec.config, ConfigFile;
    var p1 := TrussPart(spec, args);
    var p2 := p1 + CacheWarmerPart(c);
    var p3 := p2 + ServerPart();
    var p4 := p3 + ControlPart(c);
    var p5 := p4 + BaseRequirementsPart(c);
    var p6 := p5 + ServerRequirementsPart(spec, env);
    ApplyShort(files, p1);
    SparedAfter(files, p1, CacheWarmerPart(c), k);
    SparedAfter(files, p2, ServerPart(), k);
    SparedAfter(files, p3, ControlPart(c), k);
    SparedAfter(files, p4, BaseRequirementsPart(c), k);
    SparedAfter(files, p5, ServerRequirementsPart(spec, env), k);
    SparedAfter(files, p6, ManifestsPart(spec), k);
    GrowsAfter(files, p1, CacheWarmerPart(c));
    GrowsAfter(files, p2, ServerPart());
    GrowsAfter(files, p3, ControlPart(c));
    GrowsAfter(files, p4, BaseRequirementsPart(c));
    GrowsAfter(files, p5, ServerRequirementsPart(spec, env));
    GrowsAfter(files, p6, ManifestsPart(spec));
  }

  /** The server code and its shared code are in place, whatever the options. */
  lemma PreDockerfileServer(spec: TrussSpec, args: Args, files: map<string, Content>, env: Env)
    ensures var out := Apply(files, PreDockerfileSteps(spec, args, env));
      && BuildServerDirName in out && out[BuildServerDirName] == Copied(ServerCode)
      && ServerSharedDir in out && out[ServerSharedDir] == Copied(SharedCode)
  {
    var c := spec.config;
    var p2 := TrussPart(spec, args) + CacheWarmerPart(c);
    var p3 := p2 + ServerPart();
    var p4 := p3 + ControlPart(c);
    var p5 := p4 + BaseRequirementsPart(c);
    var p6 := p5 + ServerRequirementsPart(spec, env);
    ApplyConcat(files, p2, ServerPart());
    ApplyShort(Apply(files, p2), ServerPart());
    assert BuildServerDirName != ServerSharedDir;
    SurvivesAfterServer(spec, files, p3, env, BuildServerDirName);
    SurvivesAfterServer(spec, files, p3, env, ServerSharedDir);
  }

  /** A path the steps after the server code do not write keeps what it holds at that point. */
  lemma SurvivesAfterServer(spec: TrussSpec, files: map<string, Content>, p3: seq<Step>, env: Env, k: string)
    requires k in Apply(files, p3)
    requires k in {BuildServerDirName, ServerSharedDir}
    ensures var all := p3 + ControlPart(spec.config) + BaseRequirementsPart(spec.config)
                       + ServerRequirementsPart(spec, env) + ManifestsPart(spec);
      k in Apply(files, all) && Apply(files, all)[k] == Apply(files, p3)[k]
  {
    var c := spec.config;
    var p4 := p3 + ControlPart(c);
    var p5 := p4 + BaseRequirementsPart(c);
    var p6 := p5 + ServerRequirementsPart(spec, env);
    SparedAfter(files, p3, ControlPart(c), k);
    SparedAfter(files, p4, BaseRequirementsPart(c), k);
    SparedAfter(files, p5, ServerRequirementsPart(spec, env), k);
    SparedAfter(files, p6, ManifestsPart(spec), k);
  }

  /** Under live reload the control server and its shared code are in place. */
  lemma PreDockerfileControl(spec: TrussSpec, args: Args, files: map<string, Content>, env: Env)
    requires spec.config.liveReload
    ensures var out := Apply(files, PreDockerfileSteps(spec, args, env));
      && BuildControlServerDirName in out && out[BuildControlServerDirName] == Copied(ControlServerCode)
      && ControlSharedDir in out && out[ControlSharedDir] == Copied(SharedCode)
  {
    var c := spec.config;
    var p3 := TrussPart(spec, args) + CacheWarmerPart(c) + ServerPart();
    var p4 := p3 + ControlPart(c);
    var p5 := p4 + BaseRequirementsPart(c);
    var p6 := p5 + ServerRequirementsPart(spec, env);
    ApplyConcat(files, p3, ControlPart(c));
    ApplyShort(Apply(files, p3), ControlPart(c));
    assert BuildControlServerDirName != ControlSharedDir;
    forall k | k in {BuildControlServerDirName, ControlSharedDir}
      ensures k in Apply(files, PreDockerfileSteps(spec, args, env))
      ensures Apply(files, PreDockerfileSteps(spec, args, env))[k] == Apply(files, p4)[k]
    {
      SparedAfter(files, p4, BaseRequirementsPart(c), k);
      SparedAfter(files, p5, ServerRequirementsPart(spec, env), k);
      SparedAfter(files, p6, ManifestsPart(spec), k);
    }
  }

  /** The requirement manifests hold exactly the spec's texts. */
  lemma PreDockerfileManifests(spec: TrussSpec, args: Args, files: map<string, Content>, env: Env)
    ensures var out := Apply(files, PreDockerfileSteps(spec, args, env));
      && RequirementsFile in out && out[RequirementsFile] == Text(spec.requirementsTxt)
      && SystemPackagesFile in out && out[SystemPackagesFile] == Text(spec.systemPackagesTxt)
  {
    var c := spec.config;
    var p6 := TrussPart(spec, args) + CacheWarmerPart(c) + ServerPart() + ControlPart(c)
              + BaseRequirementsPart(c) + ServerRequirementsPart(spec, env);
    ApplyConcat(files, p6, ManifestsPart(spec));
    ApplyShort(Apply(files, p6), ManifestsPart(spec));
  }

  // ===========================================================================
  // The generic Dockerfile
  // ===========================================================================

  /** The directory the generic path leaves behind, starting from one holding `files`. */
  function GenericResult(spec: TrussSpec, args: Args, files: map<string, Content>, useHfSecret: bool, env: Env): map<string, Content> {
    Apply(files, GenericSteps(spec, args, files, useHfSecret, env))
  }

  /** The generic Dockerfile is the server template rendered as the last step, from the directory written before it. */
  lemma GenericDockerfile(spec: TrussSpec, args: Args, files: map<string, Content>, useHfSecret: bool, env: Env)
    ensures var out := GenericResult(spec, args, files, useHfSecret, env);
      && DockerfileName in out
      && out[DockerfileName] ==
         DockerfileStep(spec.config, args, Apply(files, PreDockerfileSteps(spec, args, env)),
                        ServerRequirementsNonEmpty(spec, env), ModelFilesOf(spec, env), useHfSecret, env).content
  {
    var pre := PreDockerfileSteps(spec, args, env);
    StepSnoc(files, pre, DockerfileStep(spec.config, args, Apply(files, pre), ServerRequirementsNonEmpty(spec, env),
                                        ModelFilesOf(spec, env), useHfSecret, env));
  }

  /** In the finished directory, `config.yaml` holds the rewritten config and every truss path is present. */
  lemma GenericConfig(spec: TrussSpec, args: Args, files: map<string, Content>, useHfSecret: bool, env: Env)
    ensures var out := GenericResult(spec, args, files, useHfSecret, env);
      && ConfigFile in out && out[ConfigFile] == ConfigYaml(ConfigView(spec.config, args))
      && spec.trussFiles <= out.Keys
  {
    var pre := PreDockerfileSteps(spec, args, env);
    PreDockerfileConfig(spec, args, files, env);
    StepSnoc(files, pre, DockerfileStep(spec.config, args, Apply(files, pre), ServerRequirementsNonEmpty(spec, env),
                                        ModelFilesOf(spec, env), useHfSecret, env));
  }

  /**
   * The install flags the Dockerfile is rendered with are read back from what was written:
   * system packages and python requirements are installed iff the spec's texts are not empty,
   * the framework's server requirements iff its file is not empty.
   */
  lemma DockerfileInstallFlags(spec: TrussSpec, args: Args, files: map<string, Content>, useHfSecret: bool, env: Env)
    ensures var out := GenericResult(spec, args, files, useHfSecret, env);
      && DockerfileName in out && out[DockerfileName].ServerDockerfile?
      && var vars := out[DockerfileName].dockerfileVars;
      && vars.shouldInstallSystemRequirements == env.fileIsNotEmpty(Text(spec.systemPackagesTxt))
      && vars.shouldInstallRequirements == env.fileIsNotEmpty(Text(spec.requirementsTxt))
      && vars.shouldInstallServerRequirements == ServerRequirementsNonEmpty(spec, env)
  {
    GenericDockerfile(spec, args, files, useHfSecret, env);
    PreDockerfileManifests(spec, args, files, env);
  }

  /**
   * The rest of the Dockerfile's variables: the base image per the configuration, the config
   * with the arguments in force, live reload as configured, no models without an HF cache,
   * and the data directory present whenever the truss itself has it.
   */
  lemma DockerfileSettings(spec: TrussSpec, args: Args, files: map<string, Content>, useHfSecret: bool, env: Env)
    ensures var out := GenericResult(spec, args, files, useHfSecret, env);
      && DockerfileName in out && out[DockerfileName].ServerDockerfile?
      && var vars := out[DockerfileName].dockerfileVars;
      && vars.baseImageNameAndTag == BaseImageNameAndTag(spec.config, env)
      && vars.config == ConfigView(spec.config, args)
      && vars.liveReload == spec.config.liveReload
      && vars.useHfSecret == useHfSecret
      && vars.models == ModelFilesOf(spec, env)
      && (spec.config.hfCache.None? ==> vars.models == map[])
      && (Exists(TrussCopy(spec).entries, spec.config.dataDir) ==> vars.dataDirExists)
  {
    GenericDockerfile(spec, args, files, useHfSecret, env);
    PreDockerfileConfig(spec, args, files, env);
    if Exists(TrussCopy(spec).entries, spec.config.dataDir) {
      ExistsGrows(TrussCopy(spec).entries, Apply(files, PreDockerfileSteps(spec, args, env)), spec.config.dataDir);
    }
  }

  // ===========================================================================
  // The builder
  // ===========================================================================

  class ServingImageBuilder {
    const spec: TrussSpec

    constructor (spec: TrussSpec)
      ensures this.spec == spec
    {
      this.spec := spec;
    }

    /** `default_tag`: the framework's name followed by `-model:latest`. */
    function DefaultTag(): (tag: string)
      ensures |tag| == |spec.modelFrameworkName| + |"-model:latest"|
      ensures tag[..|spec.modelFrameworkName|] == spec.modelFrameworkName
      ensures tag[|spec.modelFrameworkName|..] == "-model:latest"
    {
      spec.modelFrameworkName + "-model:latest"
    }

    /**
     * `prepare_image_build_dir`: TGI and VLLM builds are delegated and return at once; any
     * other backend takes the generic path, whose arguments are left as they were.
     */
    method PrepareImageBuildDir(dir: BuildDir, useHfSecret: bool, env: Env) returns (r: Outcome<BuildError>)
      modifies dir, spec.config.build
      ensures dir.created
      ensures old(spec.config.build.Valid()) ==> spec.config.build.Valid()
      ensures match spec.config.build.modelServer
        case TGI =>
          && r == Pass && spec.config.build.arguments == old(spec.config.build.arguments)
          && dir.files == Apply(old(dir.files), TgiSteps(spec.config, old(spec.config.build.arguments)))
          && dir.writes == old(dir.writes) + Targets(TgiSteps(spec.config, old(spec.config.build.arguments)))
        case VLLM =>
          && spec.config.build.arguments == Without(old(spec.config.build.arguments), EndpointKey)
          && (match VllmSteps(spec.config, old(spec.config.build.arguments))
              case Failure(e) => r == Fail(e) && dir.files == old(dir.files) && dir.writes == old(dir.writes)
              case Success(steps) =>
                r == Pass && dir.files == Apply(old(dir.files), steps) && dir.writes == old(dir.writes) + Targets(steps))
        case TrussServer =>
          && r == Pass && spec.config.build.arguments == old(spec.config.build.arguments)
          && dir.files == GenericResult(spec, old(spec.config.build.arguments), old(dir.files), useHfSecret, env)
          && dir.writes == old(dir.writes) +
               Targets(GenericSteps(spec, old(spec.config.build.arguments), old(dir.files), useHfSecret, env))
    {
      var config := spec.config;
      if config.build.modelServer == TGI {
        CreateTgiBuildDir(config, dir);
        return Pass;
      } else if config.build.modelServer == VLLM {
        r := CreateVllmBuildDir(config, dir);
        return;
      }
      PrepareGenericBuildDir(dir, useHfSecret, env);
      r := Pass;
    }

    /** The generic path of `prepare_image_build_dir`, in the order its writes and copies are made. */
    method PrepareGenericBuildDir(dir: BuildDir, useHfSecret: bool, env: Env)
      modifies dir
      ensures dir.created
      ensures dir.files == GenericResult(spec, spec.config.build.arguments, old(dir.files), useHfSecret, env)
      ensures dir.writes == old(dir.writes) + Targets(GenericSteps(spec, spec.config.build.arguments, old(dir.files), useHfSecret, env))
    {
      var config := spec.config;
      var args := config.build.arguments;
      ghost var files0, writes0 := dir.files, dir.writes;
      var shouldInstallServerRequirements, modelFiles := PrepareBeforeDockerfile(dir, env);
      ghost var files1, writes1 := dir.files, dir.writes;
      RenderDockerfile(dir, shouldInstallServerRequirements, modelFiles, useHfSecret, env);
      ghost var pre := PreDockerfileSteps(spec, args, env);
      ghost var dockerfile := DockerfileStep(config, args, files1, shouldInstallServerRequirements,
                                             modelFiles, useHfSecret, env);
      ApplyShort(files1, [dockerfile]);
      Extend(files0, writes0, pre, [dockerfile], files1, writes1, dir.files, dir.writes);
    }

    /** Everything the generic path writes and copies before it renders the Dockerfile. */
    method PrepareBeforeDockerfile(dir: BuildDir, env: Env)
        returns (shouldInstallServerRequirements: bool, modelFiles: map<string, ModelFiles>)
      modifies dir
      ensures dir.created
      ensures shouldInstallServerRequirements == ServerRequirementsNonEmpty(spec, env)
      ensures modelFiles == ModelFilesOf(spec, env)
      ensures dir.files == Apply(old(dir.files), PreDockerfileSteps(spec, spec.config.build.arguments, env))
      ensures dir.writes == old(dir.writes) + Targets(PreDockerfileSteps(spec, spec.config.build.arguments, env))
    {
      var config := spec.config;
      var args := config.build.arguments;
      ghost var files0, writes0 := dir.files, dir.writes;

      CopyTrussAndConfig(dir, args);
      ghost var p := TrussPart(spec, args);
      ghost var files1, writes1 := dir.files, dir.writes;

      CopyCacheWarmer(dir);
      modelFiles := map[];
      if config.hfCache.Some? {
        modelFiles := ResolveHfCacheModels(config.hfCache.value, env);
      }
      Extend(files0, writes0, p, CacheWarmerPart(config), files1, writes1, dir.files, dir.writes);
      p := p + CacheWarmerPart(config);
      files1, writes1 := dir.files, dir.writes;

      CopyServerCode(dir);
      Extend(files0, writes0, p, ServerPart(), files1, writes1, dir.files, dir.writes);
      p := p + ServerPart();
      files1, writes1 := dir.files, dir.writes;

      CopyControlServerCode(dir);
      Extend(files0, writes0, p, ControlPart(config), files1, writes1, dir.files, dir.writes);
      p := p + ControlPart(config);
      files1, writes1 := dir.files, dir.writes;

      CopyBaseServerRequirements(dir);
      Extend(files0, writes0, p, BaseRequirementsPart(config), files1, writes1, dir.files, dir.writes);
      p := p + BaseRequirementsPart(config);
      files1, writes1 := dir.files, dir.writes;

      shouldInstallServerRequirements := CopyServerRequirements(dir, env);
      Extend(files0, writes0, p, ServerRequirementsPart(spec, env), files1, writes1, dir.files, dir.writes);
      p := p + ServerRequirementsPart(spec, env);
      files1, writes1 := dir.files, dir.writes;

      WriteManifests(dir);
      Extend(files0, writes0, p, ManifestsPart(spec), files1, writes1, dir.files, dir.writes);
      p := p + ManifestsPart(spec);
      assert p == PreDockerfileSteps(spec, args, env);
    }

    /** `copy_tree_path(truss_dir, build_dir)`, then `config.yaml` rewritten from the config as it now reads. */
    method CopyTrussAndConfig(dir: BuildDir, args: Args)
      modifies dir
      ensures dir.created
      ensures dir.files == Apply(old(dir.files), TrussPart(spec, args))
      ensures dir.writes == old(dir.writes) + Targets(TrussPart(spec, args))
    {
      dir.CopyTree(TrussCopy(spec));
      dir.Perform(Put(ConfigFile, ConfigYaml(ConfigView(spec.config, args))));
      ApplyShort(old(dir.files), TrussPart(spec, args));
    }

    /** `cache_warmer.py`, copied from beside the builder when an HF cache is configured. */
    method CopyCacheWarmer(dir: BuildDir)
      requires dir.created
      modifies dir
      ensures dir.created
      ensures dir.files == Apply(old(dir.files), CacheWarmerPart(spec.config))
      ensures dir.writes == old(dir.writes) + Targets(CacheWarmerPart(spec.config))
    {
      if spec.config.hfCache.Some? {
        dir.Perform(Put(CacheWarmerFile, Copied(CacheWarmerScript)));
      }
      ApplyShort(old(dir.files), CacheWarmerPart(spec.config));
    }

    /** The inference server code, and the shared code inside it. */
    method CopyServerCode(dir: BuildDir)
      requires dir.created
      modifies dir
      ensures dir.created
      ensures dir.files == Apply(old(dir.files), ServerPart())
      ensures dir.writes == old(dir.writes) + Targets(ServerPart())
    {
      dir.Perform(Put(BuildServerDirName, Copied(ServerCode)));
      dir.Perform(Put(ServerSharedDir, Copied(SharedCode)));
      ApplyShort(old(dir.files), ServerPart());
    }

    /** Under live reload, the control server code and the shared code inside it. */
    method CopyControlServerCode(dir: BuildDir)
      requires dir.created
      modifies dir
      ensures dir.created
      ensures dir.files == Apply(old(dir.files), ControlPart(spec.config))
      ensures dir.writes == old(dir.writes) + Targets(ControlPart(spec.config))
    {
      if spec.config.liveReload {
        dir.Perform(Put(BuildControlServerDirName, Copied(ControlServerCode)));
        dir.Perform(Put(ControlSharedDir, Copied(SharedCode)));
      }
      ApplyShort(old(dir.files), ControlPart(spec.config));
    }

    /** For a custom base image, the server code's own requirements. */
    method CopyBaseServerRequirements(dir: BuildDir)
      requires dir.created
      modifies dir
      ensures dir.created
      ensures dir.files == Apply(old(dir.files), BaseRequirementsPart(spec.config))
      ensures dir.writes == old(dir.writes) + Targets(BaseRequirementsPart(spec.config))
    {
      if spec.config.baseImage.Some? {
        dir.Perform(Put(BaseServerRequirementsFile, Copied(BaseServerRequirements)));
      }
      ApplyShort(old(dir.files), BaseRequirementsPart(spec.config));
    }

    /** The model framework's server requirements, copied iff that file is not empty; returns that test. */
    method CopyServerRequirements(dir: BuildDir, env: Env) returns (shouldInstall: bool)
      requires dir.created
      modifies dir
      ensures dir.created
      ensures shouldInstall == ServerRequirementsNonEmpty(spec, env)
      ensures dir.files == Apply(old(dir.files), ServerRequirementsPart(spec, env))
      ensures dir.writes == old(dir.writes) + Targets(ServerRequirementsPart(spec, env))
    {
      var serverReqs := FrameworkRequirements(spec.modelFrameworkName);
      shouldInstall := env.fileIsNotEmpty(Copied(serverReqs));
      if shouldInstall {
        dir.Perform(Put(ServerRequirementsFile, Copied(serverReqs)));
      }
      ApplyShort(old(dir.files), ServerRequirementsPart(spec, env));
    }

    /** `requirements.txt` and `system_packages.txt`, written from the spec's texts. */
    method WriteManifests(dir: BuildDir)
      requires dir.created
      modifies dir
      ensures dir.created
      ensures dir.files == Apply(old(dir.files), ManifestsPart(spec))
      ensures dir.writes == old(dir.writes) + Targets(ManifestsPart(spec))
    {
      dir.Perform(Put(RequirementsFile, Text(spec.requirementsTxt)));
      dir.Perform(Put(SystemPackagesFile, Text(spec.systemPackagesTxt)));
      ApplyShort(old(dir.files), ManifestsPart(spec));
    }

    /** `_render_dockerfile`: the flags and paths it reads are taken from the directory as it is now. */
    method RenderDockerfile(dir: BuildDir, shouldInstallServerRequirements: bool,
                            modelFiles: map<string, ModelFiles>, useHfSecret: bool, env: Env)
      requires dir.created
      modifies dir
      ensures dir.created
      ensures dir.files == Effect(old(dir.files),
                DockerfileStep(spec.config, spec.config.build.arguments, old(dir.files),
                               shouldInstallServerRequirements, modelFiles, useHfSecret, env))
      ensures dir.writes == old(dir.writes) + [DockerfileName]
    {
      var config := spec.config;
      var pythonVersion := env.toDottedPythonVersion(config.pythonVersion);
      var baseImageNameAndTag := BaseImageNameAndTag(config, env);
      var shouldInstallSystemRequirements := FileIsNotEmpty(dir.files, SystemPackagesFile, env);
      var shouldInstallPythonRequirements := FileIsNotEmpty(dir.files, RequirementsFile, env);
      var vars := ServerDockerfileVars(
        shouldInstallServerRequirements := shouldInstallServerRequirements,
        baseImageNameAndTag := baseImageNameAndTag,
        shouldInstallSystemRequirements := shouldInstallSystemRequirements,
        shouldInstallRequirements := shouldInstallPythonRequirements,
        config := ConfigView(config, config.build.arguments),
        pythonVersion := pythonVersion,
        liveReload := config.liveReload,
        dataDirExists := Exists(dir.files, config.dataDir),
        bundledPackagesDirExists := Exists(dir.files, config.bundledPackagesDir),
        trussHash := env.trussHash,
        models := modelFiles,
        useHfSecret := useHfSecret);
      dir.Perform(Put(DockerfileName, ServerDockerfile(vars)));
    }
  }
}

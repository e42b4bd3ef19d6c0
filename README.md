# Serving image builder: a Dafny model

This project models the build-plan logic of truss's serving image builder, found in
`truss/contexts/image_builder/serving_image_builder.py`. Given a truss (its config, its
files, its model framework and the requirement texts it derives), the builder fills an
image build directory. The model covers which paths it writes, in what order, and what
each generated piece is made from.

- **Backend dispatch.** A TGI or VLLM build writes exactly three rendered files and returns:
  `Dockerfile`, `proxy.conf` and `supervisord.conf`. Every other model server takes the generic
  path.
- **Specialised-backend arguments.** `build.arguments` is an insertion-ordered map (`BuildArgs.Args`).
  - TGI pops the reserved `endpoint` key from a copy of the map, defaulting to `generate_stream`.
  - VLLM pops it from the config's own map, then looks it up in a two-entry table. A missing or
    unknown name is a `KeyError`, modelled as a `BuildError` result. It is raised after the
    directory is created and before any file is written.
  - The remaining pairs are flattened to `--k-with-hyphens=v` flags joined by single spaces. A
    parser of that string shows that the flags can be read back when every key is free of spaces
    and `=` and every value is free of spaces.
  - Values are not quoted. A value holding a space and `--endpoint=...` therefore still puts an
    `endpoint` flag on the command line, although the key was popped (`ValueCarriesEndpointFlag`).
- **Generic path.** The truss is copied and `config.yaml` is rewritten. Then come the cache warmer
  (iff an HF cache is configured), the server code and its shared code, the control server and
  its shared code (iff live reload), the base server requirements (iff a base image is set), the
  framework's server requirements (iff that file is not empty), then `requirements.txt` and
  `system_packages.txt` from the spec's texts. The Dockerfile comes last.
  - The `model_files` manifest is built in a loop over the declared models; the last
    declaration of a repository wins.
  - The Dockerfile's system and python install flags, and its data and bundled-packages
    directory tests, are read from the directory as just written. The base image comes from
    the config and the image-naming helpers, not from the directory.

Layout:
- `wrappers.dfy`: `Option`, `Result` and `Outcome`.
- `build_args.dfy`: argument lookup and pop, flattening, reading the flags back, and the
  endpoint rules.
- `build_config.dfy`: the parts of the config the builder reads, including the `Build`
  class, whose mutable `arguments` the VLLM path pops from in place.
- `build_directory.dfy`: the build directory as a class. It holds a map from relative paths to
  contents and a log of the target path of every write and copy.
  - Each operation is specified by a list of `Step`s folded by `Apply`.
- `image_builder.dfy`: the step lists of the three paths, the methods that perform them one
  write at a time, the manifest loop, the Dockerfile variables, and the `ServingImageBuilder`
  class.

How some things are represented:
- **Rendering** is opaque. A rendered file holds its template and its variables. The server
  Dockerfile's twelve variables form one record.
- **Copied trees** are one entry at their target path, holding their origin.
- **Foreign helpers** are function values in an `Env` record, so nothing is assumed about them.
  This covers listing and filtering a HuggingFace repository, `file_is_not_empty`, the python
  version and base image naming helpers, the pinned version tag and the truss hash.

## Model

| member | source | states |
|---|---|---|
| BuildArgs.Lookup | truss/contexts/image_builder/serving_image_builder.py:61-62 | a key is found iff some pair holds it, and the value found is stored under that key |
| BuildArgs.WithoutMembers | truss/contexts/image_builder/serving_image_builder.py:62 | after a pop, the map holds exactly the pairs under other keys |
| BuildArgs.WithoutAbsent | truss/contexts/image_builder/serving_image_builder.py:87 | popping an absent key leaves the map unchanged |
| BuildArgs.WithoutAtOnly | truss/contexts/image_builder/serving_image_builder.py:87 | a key held by one entry is removed with that entry only; the rest keep their order |
| BuildArgs.WithoutPopsOne | truss/contexts/image_builder/serving_image_builder.py:87 | in a dict, `pop` removes exactly the entry at the key's index, and the result is still a dict |
| BuildArgs.WithoutKeepsDistinct | truss/contexts/image_builder/serving_image_builder.py:87 | popping any key from a dict, present or not, leaves a dict |
| BuildArgs.Hyphenate | truss/contexts/image_builder/serving_image_builder.py:69 | same length; each `_` becomes `-`, every other character is kept |
| BuildArgs.HyphenateKeeps | truss/contexts/image_builder/serving_image_builder.py:69 | a character other than `-` occurs in the hyphenated key iff it occurs in the key and is not `_` |
| BuildArgs.Tokens | truss/contexts/image_builder/serving_image_builder.py:69 | one flag per pair |
| BuildArgs.ExtraArgs | truss/contexts/image_builder/serving_image_builder.py:69 | the flag string is empty iff the map is empty |
| BuildArgs.ExtraArgsSnoc | truss/contexts/image_builder/serving_image_builder.py:102-104 | appending a pair to the map appends a space and `--K=V` to the string, in insertion order |
| BuildArgs.ParseTokenRoundTrip | truss/contexts/image_builder/serving_image_builder.py:69 | when the key holds no `=`, a flag reads back as its hyphenated key and its value |
| BuildArgs.ExtraArgsRoundTrip | truss/contexts/image_builder/serving_image_builder.py:69 | when no key holds a space or `=` and no value holds a space, the string holds one `--K=V` flag per pair, in order; K is the key hyphenated and V the value |
| BuildArgs.HyphenateEndpoint | truss/contexts/image_builder/serving_image_builder.py:62 | only the key `endpoint` hyphenates to `endpoint` |
| BuildArgs.TgiEndpoint | truss/contexts/image_builder/serving_image_builder.py:61-62 | the proxy target is the `endpoint` argument when present, else `generate_stream` |
| BuildArgs.TgiExtraArgsOmitEndpoint | truss/contexts/image_builder/serving_image_builder.py:61-69 | when no key holds a space or `=` and no value holds a space, no flag read back from TGI's extra args is named `endpoint` |
| BuildArgs.VllmServerEndpoint | truss/contexts/image_builder/serving_image_builder.py:79-87 | `Completions` gives `/v1/completions` and `ChatCompletions` gives `/v1/chat/completions`; a missing key is `MissingEndpoint` and any other name an error |
| BuildArgs.VllmEndpointConsumed | truss/contexts/image_builder/serving_image_builder.py:87 | once popped, a second VLLM lookup finds the endpoint missing |
| BuildArgs.VllmExample | truss/contexts/image_builder/serving_image_builder.py:79-87 | `{endpoint: ChatCompletions}` proxies to `/v1/chat/completions` |
| BuildDirectory.BuildDir.Perform | truss/contexts/image_builder/serving_image_builder.py:151-152 | one write or copy: the new contents and the extended log |
| BuildDirectory.BuildDir.MakeDirs | truss/contexts/image_builder/serving_image_builder.py:49-50 | the directory exists; contents unchanged |
| BuildDirectory.BuildDir.CopyTree | truss/contexts/image_builder/serving_image_builder.py:155 | the directory exists and holds the copied tree |
| ImageBuilder.TgiPlan | truss/contexts/image_builder/serving_image_builder.py:48-75 | TGI writes Dockerfile, proxy.conf, supervisord.conf in that order and nothing else; the Dockerfile's HF access token, the proxy's endpoint and the supervisor's flags |
| ImageBuilder.CreateTgiBuildDir | truss/contexts/image_builder/serving_image_builder.py:48-75 | the directory exists, the config's arguments are unchanged, the contents and log are those of the TGI plan |
| ImageBuilder.VllmPlan | truss/contexts/image_builder/serving_image_builder.py:78-110 | VLLM succeeds iff the endpoint is one of the two names, and a missing one is `MissingEndpoint`; it then writes Dockerfile, proxy.conf, supervisord.conf in that order and nothing else: the Dockerfile gets the HF access token, the proxy the table's path, and the supervisor the flags of every argument but `endpoint` |
| BuildArgs.ValueCarriesEndpointFlag | truss/contexts/image_builder/serving_image_builder.py:61-69 | when the key is not `endpoint` and holds no space or `=`, and the value is a space-free part, one space and `--endpoint=W` with W free of spaces, the pair reads back after the pop as two flags, the second `(endpoint, W)` |
| ImageBuilder.CreateVllmBuildDir | truss/contexts/image_builder/serving_image_builder.py:78-110 | `endpoint` is gone from the config's arguments even on failure; a failure writes nothing; a success writes the VLLM plan; the arguments stay a dict |
| ImageBuilder.ManifestKeys | truss/contexts/image_builder/serving_image_builder.py:169-186 | the manifest has a key iff some declared model has that repository id |
| ImageBuilder.ManifestLastWins | truss/contexts/image_builder/serving_image_builder.py:183-186 | a repository keeps the files and revision of its last declaration |
| ImageBuilder.ResolveHfCacheModels | truss/contexts/image_builder/serving_image_builder.py:165-186 | the loop builds exactly the manifest of the declared models, in order |
| ImageBuilder.BaseImageChoice | truss/contexts/image_builder/serving_image_builder.py:242-252 | a configured base image wins; otherwise, when the server image name holds no `:`, the string splits at its first `:` into the server image name and the tag from the dotted python version, GPU flag and pinned tag |
| ImageBuilder.PreDockerfileTargetsFixed | truss/contexts/image_builder/serving_image_builder.py:153-223 | config, server, server shared code and both manifests are always written before the Dockerfile, and the Dockerfile is not |
| ImageBuilder.PreDockerfileTargetsControl | truss/contexts/image_builder/serving_image_builder.py:196-203 | both control paths are written iff live reload is on |
| ImageBuilder.PreDockerfileTargetsOptional | truss/contexts/image_builder/serving_image_builder.py:166-220 | base requirements iff a base image, cache warmer iff an HF cache, server requirements iff non-empty |
| ImageBuilder.PreDockerfileShape | truss/contexts/image_builder/serving_image_builder.py:154-223 | the generic path's log before the Dockerfile is the decision table's path list |
| ImageBuilder.GenericTargets | truss/contexts/image_builder/serving_image_builder.py:154-227 | the generic log is that path list followed by `Dockerfile` |
| ImageBuilder.GenericLayout | truss/contexts/image_builder/serving_image_builder.py:153-223 | config always; server trees always; control trees iff live reload; base requirements iff base image; cache warmer iff HF cache; server requirements iff non-empty |
| ImageBuilder.GenericDockerfileLast | truss/contexts/image_builder/serving_image_builder.py:222-227 | the Dockerfile is written last and once, after both requirement manifests |
| ImageBuilder.PreDockerfileConfig | truss/contexts/image_builder/serving_image_builder.py:154-159 | `config.yaml` holds the rewritten config, not the truss's own, and every truss file is present |
| ImageBuilder.PreDockerfileServer | truss/contexts/image_builder/serving_image_builder.py:188-193 | the server code and its shared code are in place |
| ImageBuilder.PreDockerfileControl | truss/contexts/image_builder/serving_image_builder.py:195-203 | under live reload the control server and its shared code are in place |
| ImageBuilder.PreDockerfileManifests | truss/contexts/image_builder/serving_image_builder.py:222-223 | the two manifests hold exactly the spec's texts |
| ImageBuilder.GenericDockerfile | truss/contexts/image_builder/serving_image_builder.py:225-227 | the Dockerfile is rendered from the directory as it stands after every other write |
| ImageBuilder.GenericConfig | truss/contexts/image_builder/serving_image_builder.py:153-158 | in the finished directory, `config.yaml` holds the rewritten config view and every truss path is present |
| ImageBuilder.DockerfileInstallFlags | truss/contexts/image_builder/serving_image_builder.py:216-263 | the system and python install flags are the non-emptiness of the spec's texts; the server flag is that of the framework's file |
| ImageBuilder.DockerfileSettings | truss/contexts/image_builder/serving_image_builder.py:259-271 | base image, config with the arguments in force, live reload, HF secret flag, manifest (empty without an HF cache), data dir present whenever the truss has it |
| ImageBuilder.ServingImageBuilder.constructor | truss/contexts/image_builder/serving_image_builder.py:120-122 | the builder holds the truss spec |
| ImageBuilder.ServingImageBuilder.DefaultTag | truss/contexts/image_builder/serving_image_builder.py:124-126 | the tag is the framework's name followed by `-model:latest` |
| ImageBuilder.ServingImageBuilder.PrepareImageBuildDir | truss/contexts/image_builder/serving_image_builder.py:142-147 | TGI and VLLM get their three-file plans and return; any other server gets the generic plan with arguments unchanged; the arguments stay a dict |
| ImageBuilder.ServingImageBuilder.PrepareGenericBuildDir | truss/contexts/image_builder/serving_image_builder.py:149-227 | the directory's contents and log are exactly those of the generic plan |
| ImageBuilder.ServingImageBuilder.PrepareBeforeDockerfile | truss/contexts/image_builder/serving_image_builder.py:154-223 | performs the pre-Dockerfile plan; returns the server-requirements test and the manifest |
| ImageBuilder.ServingImageBuilder.CopyTrussAndConfig | truss/contexts/image_builder/serving_image_builder.py:154-159 | the truss copy, then the rewritten config |
| ImageBuilder.ServingImageBuilder.CopyCacheWarmer | truss/contexts/image_builder/serving_image_builder.py:166-168 | the cache warmer, iff an HF cache is configured |
| ImageBuilder.ServingImageBuilder.CopyServerCode | truss/contexts/image_builder/serving_image_builder.py:188-193 | the server tree and its shared code |
| ImageBuilder.ServingImageBuilder.CopyControlServerCode | truss/contexts/image_builder/serving_image_builder.py:195-203 | the control tree and its shared code, iff live reload |
| ImageBuilder.ServingImageBuilder.CopyBaseServerRequirements | truss/contexts/image_builder/serving_image_builder.py:205-212 | the base server requirements, iff a base image is set |
| ImageBuilder.ServingImageBuilder.CopyServerRequirements | truss/contexts/image_builder/serving_image_builder.py:214-220 | returns the non-emptiness test and copies the file iff it holds |
| ImageBuilder.ServingImageBuilder.WriteManifests | truss/contexts/image_builder/serving_image_builder.py:222-223 | both manifests written from the spec's texts |
| ImageBuilder.ServingImageBuilder.RenderDockerfile | truss/contexts/image_builder/serving_image_builder.py:229-274 | one write of the server Dockerfile, its flags and existence tests read from the directory at that moment |

## Left out

- YAML serialisation of the config: `config.yaml` holds the config view (`ConfigYaml`) rather than its text.
- Jinja template contents and rendering: a rendered file is its template plus its variables.
- `list_repo_files` and `filter_repo_objects` are uninterpreted, and their network failures are not modelled.
- `file_is_not_empty`, `to_dotted_python_version`, `truss_base_image_name`, `truss_base_image_tag` and `TRUSS_BASE_IMAGE_VERSION_TAG` are uninterpreted. Their source (`truss/contexts/image_builder/util.py`) is not part of this model.
- `directory_content_hash` is a given value: hashing is outside the model.
- `download_external_data` at line 162 is left out: it downloads over the network into the data directory.
- The contents of `copy_tree_path` and `copy_tree_or_file` are not modelled. A copied tree is one entry at its target path; only the truss copy lays out its files one by one.
- The default build directory (`build_truss_target_directory`, lines 138-140) is left out: the directory is always a parameter.
- The values of the constants imported from `truss/constants.py` are written into the model (`shared`, `requirements.txt`, `system_packages.txt`, `Dockerfile`, `server_requirements.txt`, `base_server_requirements.txt`). That file is not part of this model; the proofs rely only on the names being distinct.
- Argument values are their `str` text; Python's rendering of non-string values is not modelled.
- `hf_cache` is either unset or a list of models, and "set" stands for its truthiness in `if config.hf_cache`.
- Filesystem errors, template errors and partial writes on failure are not modelled.
- `ServingImageBuilderContext.run` (lines 113-116) only constructs the builder; it is not modelled separately.
- `truss/model_frameworks/ivy.py` is not part of this model: it wraps a foreign library.
- ImageBuilder.DockerfileSettings: the data directory's existence is stated in one direction only (a truss holding the directory yields `true`), because the directory can also come from other copies.
- ImageBuilder.ResolveHfCacheModels: `model_files` is a map, so the order in which the Python dict holds its repositories (first insertion of each `repo_id`) and hands them to the Dockerfile template is not modelled.
- BuildConfig.Build: the argument map's distinct keys (`Build.Valid`) hold from construction and across the VLLM pop, but the model's methods do not demand them; the pop removes every pair under the key, which is `dict.pop` whenever the keys are distinct (`WithoutPopsOne`).

/**
 * The build directory as an abstract file system: a map from relative paths to
 * what each path holds, plus the log of the operations that wrote into it.
 * A copied tree is one entry at its target path holding the tree's origin.
 */
module BuildDirectory {
  import opened Wrappers
  import opened BuildArgs
  import opened BuildConfig

  /** The Jinja templates the builder renders. */
  datatype Template =
    | TgiDockerfile       // tgi/tgi.Dockerfile.jinja
    | TgiProxyConf        // tgi/proxy.conf.jinja
    | TgiSupervisordConf  // tgi/supervisord.conf.jinja
    | VllmDockerfile      // vllm/vllm.Dockerfile.jinja
    | VllmProxyConf       // vllm/proxy.conf.jinja
    | VllmSupervisordConf // vllm/supervisord.conf.jinja

  /** Where copied content comes from, outside the build directory. */
  datatype Source =
    | TrussFile(path: string)            // a file of the truss being built
    | ServerCode                         // the inference server code tree
    | SharedCode                         // the shared serving and training code tree
    | ControlServerCode                  // the control server code tree
    | CacheWarmerScript                  // cache_warmer.py beside the builder
    | BaseServerRequirements             // the server code tree's requirements.txt
    | FrameworkRequirements(framework: string) // templates/<framework>/requirements.txt

  /** One entry of the `model_files` manifest. */
  datatype ModelFiles = ModelFiles(files: seq<string>, revision: Option<string>)

  /** A variable of the TGI and VLLM templates. */
  datatype Var =
    | VText(text: string)
    | VOptText(opt: Option<string>)

  /** The variables the generic server's Dockerfile template is rendered with, one field per name. */
  datatype ServerDockerfileVars = ServerDockerfileVars(
    shouldInstallServerRequirements: bool,
    baseImageNameAndTag: string,
    shouldInstallSystemRequirements: bool,
    shouldInstallRequirements: bool,
    config: ConfigView,
    pythonVersion: string,
    liveReload: bool,
    dataDirExists: bool,
    bundledPackagesDirExists: bool,
    trussHash: string,
    models: map<string, ModelFiles>,
    useHfSecret: bool)

  /** What a path in the build directory holds. Rendering is opaque: a template and its variables. */
  datatype Content =
    | Rendered(template: Template, vars: map<string, Var>)
    | ServerDockerfile(dockerfileVars: ServerDockerfileVars)
    | Text(text: string)
    | Copied(source: Source)
    | ConfigYaml(view: ConfigView)

  /**
   * One operation on the directory, with the target path it is made at: a file written or a
   * tree copied to one path, or a tree copied onto the directory with its entries in place.
   */
  datatype Step =
    | Put(target: string, content: Content)
    | PutTree(target: string, entries: map<string, Content>)

  /** The directory after one step. */
  function Effect(files: map<string, Content>, s: Step): map<string, Content> {
    match s
    case Put(p, c) => files[p := c]
    case PutTree(_, e) => files + e
  }

  /** The directory after performing `steps` in order on `files`. */
  function Apply(files: map<string, Content>, steps: seq<Step>): map<string, Content> {
    if steps == [] then files
    else Effect(Apply(files, steps[..|steps| - 1]), steps[|steps| - 1])
  }

  function Targets(steps: seq<Step>): (ts: seq<string>)
    ensures |ts| == |steps|
  {
    seq(|steps|, i requires 0 <= i < |steps| => steps[i].target)
  }

  lemma StepSnoc(files: map<string, Content>, steps: seq<Step>, s: Step)
    ensures Apply(files, steps + [s]) == Effect(Apply(files, steps), s)
  {
    assert (steps + [s])[..|steps|] == steps;
  }

  lemma {:induction false} ApplyConcat(files: map<string, Content>, a: seq<Step>, b: seq<Step>)
    ensures Apply(files, a + b) == Apply(Apply(files, a), b)
  {
    if b == [] {
      assert a + b == a;
    } else {
      var init := b[..|b| - 1];
      assert (a + b)[..|a + b| - 1] == a + init;
      ApplyConcat(files, a, init);
    }
  }

  lemma TargetsSnoc(steps: seq<Step>, s: Step)
    ensures Targets(steps + [s]) == Targets(steps) + [s.target]
  {
  }

  lemma TargetsConcat(a: seq<Step>, b: seq<Step>)
    ensures Targets(a + b) == Targets(a) + Targets(b)
  {
  }

  /** A directory reached by `p` from `files`, then by `q`, is reached by `p + q`, with both logs in order. */
  lemma Extend(files: map<string, Content>, writes: seq<string>, p: seq<Step>, q: seq<Step>,
               mid: map<string, Content>, midWrites: seq<string>, last: map<string, Content>, lastWrites: seq<string>)
    requires mid == Apply(files, p) && midWrites == writes + Targets(p)
    requires last == Apply(mid, q) && lastWrites == midWrites + Targets(q)
    ensures last == Apply(files, p + q) && lastWrites == writes + Targets(p + q)
  {
    ApplyConcat(files, p, q);
    TargetsConcat(p, q);
  }

  /** Performing at most two steps. */
  lemma ApplyShort(files: map<string, Content>, s: seq<Step>)
    requires |s| <= 2
    ensures |s| == 0 ==> Apply(files, s) == files
    ensures |s| == 1 ==> Apply(files, s) == Effect(files, s[0])
    ensures |s| == 2 ==> Apply(files, s) == Effect(Effect(files, s[0]), s[1])
  {
    if |s| > 0 {
      assert s[..|s| - 1][..0] == [];
    }
  }

  /** Every step of `s` writes one file, and none of them writes `k`. */
  predicate Spares(s: seq<Step>, k: string) {
    forall i | 0 <= i < |s| :: s[i].Put? && s[i].target != k
  }

  /** Steps that spare `k` leave its presence and its content as they were. */
  lemma {:induction false} ApplySpares(files: map<string, Content>, s: seq<Step>, k: string)
    requires Spares(s, k)
    ensures (k in Apply(files, s)) == (k in files)
    ensures k in files ==> Apply(files, s)[k] == files[k]
  {
    if s != [] {
      ApplySpares(files, s[..|s| - 1], k);
    }
  }

  /** Carrying `k` across a further block of steps that spares it. */
  lemma SparedAfter(files: map<string, Content>, a: seq<Step>, b: seq<Step>, k: string)
    requires Spares(b, k)
    ensures (k in Apply(files, a + b)) == (k in Apply(files, a))
    ensures k in Apply(files, a) ==> Apply(files, a + b)[k] == Apply(files, a)[k]
  {
    ApplyConcat(files, a, b);
    ApplySpares(Apply(files, a), b, k);
  }

  /** Nothing is ever removed from a build directory. */
  lemma {:induction false} ApplyGrows(files: map<string, Content>, s: seq<Step>)
    ensures files.Keys <= Apply(files, s).Keys
  {
    if s != [] {
      ApplyGrows(files, s[..|s| - 1]);
    }
  }

  lemma GrowsAfter(files: map<string, Content>, a: seq<Step>, b: seq<Step>)
    ensures Apply(files, a).Keys <= Apply(files, a + b).Keys
  {
    ApplyConcat(files, a, b);
    ApplyGrows(Apply(files, a), b);
  }

  /** `(build_dir / p).exists()`: `p` is a file or has a file below it. */
  predicate Exists(files: map<string, Content>, p: string) {
    p in files || exists k :: k in files && |k| > |p| && k[..|p| + 1] == p + "/"
  }

  /** A path that exists keeps existing in a directory that holds at least the same paths. */
  lemma ExistsGrows(files: map<string, Content>, more: map<string, Content>, p: string)
    requires files.Keys <= more.Keys
    requires Exists(files, p)
    ensures Exists(more, p)
  {
  }

  class BuildDir {
    /** whether the directory itself exists */
    var created: bool
    var files: map<string, Content>
    /** the target path of every write and copy made here, in order */
    var writes: seq<string>

    /** A path that does not exist yet. */
    constructor ()
      ensures !created && files == map[] && writes == []
    {
      created := false;
      files := map[];
      writes := [];
    }

    /** `build_dir.mkdir(parents=True)`. */
    method MakeDirs()
      modifies this
      ensures created && files == old(files) && writes == old(writes)
    {
      created := true;
    }

    /** A `write_text` to a path, or a copy into one. */
    method Perform(s: Step)
      requires created
      modifies this
      ensures created
      ensures files == Effect(old(files), s)
      ensures writes == old(writes) + [s.target]
    {
      files := Effect(files, s);
      writes := writes + [s.target];
    }

    /** `copy_tree_path(src, build_dir)`: copies a tree onto the directory, creating it first. */
    method CopyTree(s: Step)
      modifies this
      ensures created
      ensures files == Effect(old(files), s)
      ensures writes == old(writes) + [s.target]
    {
      created := true;
      Perform(s);
    }
  }
}

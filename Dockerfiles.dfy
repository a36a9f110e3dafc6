/**
 * `create_dockerfile`: for one configuration, resolve the version, create
 * `<config dir>/images/<version>/`, render the Dockerfile template into it,
 * then render the build and deploy scripts beside it and make them
 * executable. The keyword arguments grow step by step, and every render sees
 * the entries added before it.
 */
module Dockerfiles {
  import opened Wrappers
  import opened FileTree
  import opened Tags
  import opened Templates
  import Parser

  const DEFAULT_DOCKERFILE_TEMPLATE := "Dockerfile.template"
  const DEFAULT_DOCKERFILE_USER := "tslno"

  datatype DockerError =
    | ConfigDirMissing(path: Path)     // the configuration file's directory is not a directory
    | NoVersionField                   // args has no "version" entry (a KeyError)
    | EmptyVersion                     // the effective version is the empty string
    | FsFailure(fs: FsError)
    | RenderFailure(render: RenderError)
    | TagFailure(tag: TagError)

  /**
   * One level of version aliasing: when the value of "version" is itself a
   * key, "version" takes that key's value; otherwise nothing changes.
   */
  function Alias(args: Args): (r: Args)
    requires "version" in args
    ensures r.Keys == args.Keys
    ensures args["version"] in args ==> r["version"] == args[args["version"]]
    ensures args["version"] !in args ==> r == args
    ensures forall k :: k in args && k != "version" ==> r[k] == args[k]
  {
    var version := args["version"];
    if version in args then args["version" := args[version]] else args
  }

  /** The documented aliases, and a chain that is followed for one step only. */
  lemma AliasExamples()
    ensures Alias(map["version" := "node_version", "node_version" := "9.11.2"])["version"] == "9.11.2"
    ensures Alias(map["version" := "9.11.2"])["version"] == "9.11.2"
    ensures Alias(map["version" := "a", "a" := "b", "b" := "c"])["version"] == "b"
  {
  }

  /** `args.get("template", DEFAULT_DOCKERFILE_TEMPLATE)` */
  function TemplateName(args: Args): (r: string)
    ensures "template" in args ==> r == args["template"]
    ensures "template" !in args ==> r == DEFAULT_DOCKERFILE_TEMPLATE
  {
    if "template" in args then args["template"] else DEFAULT_DOCKERFILE_TEMPLATE
  }

  /** Where the images of one version go. */
  function OutputDir(directory: Path, version: string): (r: Path)
    ensures |r| == |directory| + 2 && Dirname(Dirname(r)) == directory
    ensures r[|directory|] == "images" && r[|directory| + 1] == version
  {
    directory + ["images", version]
  }

  /** `now` with key `k` put back as it stood in `earlier`: present with its earlier value, or absent. */
  function Before(now: Args, earlier: Args, k: string): (r: Args)
    ensures r.Keys == if k in earlier then now.Keys + {k} else now.Keys - {k}
    ensures k in earlier ==> r[k] == earlier[k]
    ensures forall j :: j in now && j != k ==> r[j] == now[j]
  {
    if k in earlier then now[k := earlier[k]] else now - {k}
  }

  /** Making the output directory and the Dockerfile in it does not change the tag of the configuration's directory. */
  lemma TagUnaffected(t: Tree, u: Tree, directory: Path, version: string)
    requires t.WellFormed() && t.IsDir(directory)
    requires u.dirs == t.dirs + Prefixes(OutputDir(directory, version))
    requires t.files.Keys <= u.files.Keys <= t.files.Keys + {OutputDir(directory, version) + ["Dockerfile"]}
    ensures GetTag(u, directory, [], DELIMITER) == GetTag(t, directory, [], DELIMITER)
  {
    var d, out := directory, OutputDir(directory, version);
    forall j | 0 <= j <= |d| ensures t.IsDir(d[..j]) <==> u.IsDir(d[..j]) {
      AncestorsAreDirs(t, d, j);
    }
    forall j | 0 <= j <= |d| ensures HasSentinel(t, d[..j]) <==> HasSentinel(u, d[..j]) {
      var q := d[..j] + [ROOT];
      assert q != out + ["Dockerfile"] by {
        assert |q| != |out + ["Dockerfile"]|;
      }
      if j < |d| {
        if q in Prefixes(out) {
          var i :| 0 <= i <= |out| && q == out[..i];
          assert out[..i] == d[..i];
          AncestorsAreDirs(t, d, i);
        }
      } else {
        assert q !in Prefixes(out) by {
          forall i | 0 <= i <= |out| ensures out[..i] != q {
            if i == |d| + 1 {
              assert out[..i][|d|] != q[|d|];
            } else {
              assert |out[..i]| != |q|;
            }
          }
        }
      }
    }
    GetTagFrame(t, u, d, [], DELIMITER);
  }

  /**
   * The version checks: a missing "version" entry is an error, the alias is
   * resolved in `args`, and an empty effective version is an error.
   */
  function ResolveVersion(args: Args): (r: Result<Args, DockerError>)
    ensures r.Success? <==> "version" in args && Alias(args)["version"] != ""
    ensures "version" !in args ==> r == Failure(NoVersionField)
    ensures "version" in args && Alias(args)["version"] == "" ==> r == Failure(EmptyVersion)
    ensures r.Success? ==> r.value == Alias(args)
  {
    if "version" !in args then Failure(NoVersionField)
    else
      var resolved := Alias(args);
      if resolved["version"] == "" then Failure(EmptyVersion) else Success(resolved)
  }

  /** The entries `tag` and `user` are added only where absent; the tag comes from the directory layout. */
  function WithDefaults(tree: Tree, directory: Path, args: Args): (r: Result<Args, DockerError>)
    ensures r.Failure? <==> "tag" !in args && GetTag(tree, directory, [], DELIMITER).Failure?
    ensures r.Failure? ==> r.error == TagFailure(GetTag(tree, directory, [], DELIMITER).error)
    ensures r.Success? ==>
              && r.value.Keys == args.Keys + {"tag", "user"}
              && (forall k :: k in args ==> r.value[k] == args[k])
              && ("tag" !in args ==> GetTag(tree, directory, [], DELIMITER) == Success(r.value["tag"]))
              && ("user" !in args ==> r.value["user"] == DEFAULT_DOCKERFILE_USER)
  {
    var tagged :- if "tag" in args then Success(args)
                  else match GetTag(tree, directory, [], DELIMITER)
                    case Success(tag) => Success(args["tag" := tag])
                    case Failure(e) => Failure(TagFailure(e));
    if "user" in tagged then Success(tagged) else Success(tagged["user" := DEFAULT_DOCKERFILE_USER])
  }

  /** The tree once the output directory and all its ancestors exist. */
  function Opened(t: Tree, out: Path): Tree {
    t.(dirs := t.dirs + Prefixes(out))
  }

  /** The tree once `content` has been written to `p`, with its execute bit set when `exec` holds. */
  function Written(t: Tree, p: Path, content: string, exec: bool): Tree {
    t.(files := t.files[p := content], executable := if exec then t.executable + {p} else t.executable)
  }

  /**
   * `u` differs from `t` at most by new directories among `dirs` and by files
   * among `files` that were created, overwritten or made executable.
   */
  ghost predicate Grows(t: Tree, u: Tree, dirs: set<Path>, files: set<Path>) {
    && t.dirs <= u.dirs <= t.dirs + dirs
    && t.files.Keys <= u.files.Keys <= t.files.Keys + files
    && (forall p :: p in t.files && p !in files ==> u.files[p] == t.files[p])
    && t.executable <= u.executable <= t.executable + files
  }

  /** `os.makedirs(out)` meets a file where one of the proper ancestors of `out` should be. */
  ghost predicate Blocked(t: Tree, out: Path) {
    exists j :: 0 <= j < |out| && t.IsFile(out[..j])
  }

  /** No file stands on `out` or on any of its ancestors. */
  ghost predicate Clear(t: Tree, out: Path) {
    forall j :: 0 <= j <= |out| ==> !t.IsFile(out[..j])
  }

  lemma ClearOrBlocked(t: Tree, out: Path)
    ensures Clear(t, out) <==> !Blocked(t, out) && !t.IsFile(out)
  {
    assert out[..|out|] == out;
  }

  /** Creating directories leaves every file, and so every render, as it was. */
  lemma RenderOpened(t: Tree, out: Path, template: Path, args: Args)
    ensures Render(Opened(t, out), template, args) == Render(t, template, args)
  {
  }

  /** Writing a file other than the template leaves the render of the template as it was. */
  lemma RenderUnwritten(t: Tree, p: Path, content: string, exec: bool, template: Path, args: Args)
    requires p != template
    ensures Render(Written(t, p, content, exec), template, args) == Render(t, template, args)
  {
  }

  /** The generated files are never the fixed script templates they are rendered from. */
  lemma TemplatesApart(out: Path, utilDir: Path)
    ensures out + ["Dockerfile"] != BuildTemplate(utilDir) && out + ["Dockerfile"] != DeployTemplate(utilDir)
    ensures out + ["build"] != DeployTemplate(utilDir)
  {
    var build, deploy := BuildTemplate(utilDir), DeployTemplate(utilDir);
    assert build[|build| - 1] == "build.template" && deploy[|deploy| - 1] == "deploy.template";
    assert (out + ["Dockerfile"])[|out|] == "Dockerfile" && (out + ["build"])[|out|] == "build";
  }

  /** Neither script template is touched by writing the Dockerfile, nor the deploy template by writing the build script. */
  lemma ScriptTemplatesKept(initial: Tree, out: Path, utilDir: Path, dockerText: string, buildText: string, buildArgs: Args, deployArgs: Args)
    ensures var afterDockerfile := Written(Opened(initial, out), out + ["Dockerfile"], dockerText, false);
            && RenderBuild(afterDockerfile, utilDir, buildArgs) == RenderBuild(initial, utilDir, buildArgs)
            && RenderDeploy(afterDockerfile, utilDir, deployArgs) == RenderDeploy(initial, utilDir, deployArgs)
            && RenderDeploy(Written(afterDockerfile, out + ["build"], buildText, true), utilDir, deployArgs)
                 == RenderDeploy(initial, utilDir, deployArgs)
  {
    var afterDockerfile := Written(Opened(initial, out), out + ["Dockerfile"], dockerText, false);
    TemplatesApart(out, utilDir);
    RenderOpened(initial, out, BuildTemplate(utilDir), buildArgs);
    RenderUnwritten(Opened(initial, out), out + ["Dockerfile"], dockerText, false, BuildTemplate(utilDir), buildArgs);
    RenderOpened(initial, out, DeployTemplate(utilDir), deployArgs);
    RenderUnwritten(Opened(initial, out), out + ["Dockerfile"], dockerText, false, DeployTemplate(utilDir), deployArgs);
    RenderUnwritten(afterDockerfile, out + ["build"], buildText, true, DeployTemplate(utilDir), deployArgs);
  }

  /** A file in `out` is never one of the directories that creating `out` adds. */
  lemma ChildNotPrefix(out: Path, name: string)
    ensures out + [name] !in Prefixes(out)
  {
    forall i | 0 <= i <= |out| ensures out[..i] != out + [name] {
      assert |out[..i]| < |out + [name]|;
    }
  }

  /**
   * Making the output directory, recording it in `args`, rendering the
   * Dockerfile template (which must be a file) with those arguments, writing
   * the Dockerfile and recording its path. `final` is `args` as this step
   * leaves it, whether it completes or not.
   */
  method MakeDockerfile(fs: FileSystem, directory: Path, version: string, args: Args) returns (r: Outcome<DockerError>, final: Args)
    requires fs.Valid()
    modifies fs
    ensures fs.Valid()
    ensures var out := OutputDir(directory, version);
            var dockerfile := out + ["Dockerfile"];
            var current := args["dockerfile_directory" := PathString(out)];
            var content := Render(old(fs.tree), directory + [TemplateName(args)], current);
            // makedirs fails: nothing has changed yet
            && (Blocked(old(fs.tree), out) ==>
                  && fs.tree == old(fs.tree) && final == args
                  && exists j :: 0 <= j < |out| && old(fs.tree).IsFile(out[..j]) && r == Fail(FsFailure(NotADirectory(out[..j]))))
            // makedirs succeeds or finds the path taken: `dockerfile_directory` is recorded
            && (!Blocked(old(fs.tree), out) ==>
                  && (r.Pass? <==> !old(fs.tree).IsFile(out) && !old(fs.tree).IsDir(dockerfile) && content.Success?)
                  && (content.Failure? ==> r == Fail(RenderFailure(content.error)))
                  && (content.Success? && r.Fail? ==> r == Fail(FsFailure(CannotOpen(dockerfile))))
                  && (r.Fail? ==> final == current &&
                                  fs.tree == if old(fs.tree).IsFile(out) then old(fs.tree) else Opened(old(fs.tree), out))
                  && (r.Pass? ==> final == current["dockerfile" := PathString(dockerfile)] &&
                                  fs.tree == Written(Opened(old(fs.tree), out), dockerfile, content.value, false)))
  {
    ghost var out := OutputDir(directory, version);
    ghost var initial := fs.tree;
    assert out[..|out|] == out;
    final := args;
    var made := fs.CreateDir(directory, ["images", version]);
    if made.Failure? {
      return Fail(FsFailure(made.error)), final;
    }
    var dockerfileDir := made.value;
    final := final["dockerfile_directory" := PathString(dockerfileDir)];
    KeysDistinct();
    ChildNotPrefix(out, "Dockerfile");
    RenderOpened(initial, out, directory + [TemplateName(args)], final);
    assert fs.tree.IsDir(out) <==> !initial.IsFile(out);
    assert fs.tree.IsDir(out + ["Dockerfile"]) <==> initial.IsDir(out + ["Dockerfile"]);
    assert Render(fs.tree, directory + [TemplateName(final)], final) == Render(initial, directory + [TemplateName(args)], final);
    var dockerfile := WriteDockerfile(fs, dockerfileDir, directory + [TemplateName(final)], final);
    if dockerfile.Failure? {
      return Fail(dockerfile.error), final;
    }
    final := final["dockerfile" := PathString(dockerfile.value)];
    r := Pass;
  }

  /** Checking that the Dockerfile template is a file, rendering it, and writing the result as `Dockerfile` in `out`. */
  method WriteDockerfile(fs: FileSystem, out: Path, template: Path, args: Args) returns (r: Result<Path, DockerError>)
    requires fs.Valid()
    modifies fs
    ensures fs.Valid()
    ensures var dockerfile := out + ["Dockerfile"];
            var content := Render(old(fs.tree), template, args);
            && (r.Success? <==> content.Success? && old(fs.tree).IsDir(out) && !old(fs.tree).IsDir(dockerfile))
            && (content.Failure? ==> r == Failure(RenderFailure(content.error)))
            && (content.Success? && r.Failure? ==> r == Failure(FsFailure(CannotOpen(dockerfile))))
            && (r.Failure? ==> fs.tree == old(fs.tree))
            && (r.Success? ==> r.value == dockerfile && fs.tree == Written(old(fs.tree), dockerfile, content.value, false))
  {
    if !fs.tree.IsFile(template) {
      return Failure(RenderFailure(TemplateNotFound(template)));
    }
    var content := Render(fs.tree, template, args);
    if content.Failure? {
      return Failure(RenderFailure(content.error));
    }
    var dockerfile := fs.CreateFile(out, "Dockerfile", content.value);
    if dockerfile.Failure? {
      return Failure(FsFailure(dockerfile.error));
    }
    return Success(dockerfile.value);
  }

  /** Rendering one script template and writing the result as an executable file `name` in `out`. */
  method MakeScript(fs: FileSystem, out: Path, name: string, template: Path, args: Args) returns (r: Result<Path, DockerError>)
    requires fs.Valid()
    modifies fs
    ensures fs.Valid()
    ensures var script := out + [name];
            var content := Render(old(fs.tree), template, args);
            && (r.Success? <==> content.Success? && old(fs.tree).IsDir(out) && !old(fs.tree).IsDir(script))
            && (content.Failure? ==> r == Failure(RenderFailure(content.error)))
            && (content.Success? && r.Failure? ==> r == Failure(FsFailure(CannotOpen(script))))
            && (r.Failure? ==> fs.tree == old(fs.tree))
            && (r.Success? ==> r.value == script && fs.tree == Written(old(fs.tree), script, content.value, true))
  {
    var content := Render(fs.tree, template, args);
    if content.Failure? {
      return Failure(RenderFailure(content.error));
    }
    var script := fs.CreateScript(out, name, content.value);
    if script.Failure? {
      return Failure(FsFailure(script.error));
    }
    return Success(script.value);
  }

  /**
   * Rendering and writing the build script, recording its path in `args`,
   * then rendering and writing the deploy script with that entry present.
   * Both templates are read from the tree as it stood before, since neither
   * is one of the scripts written.
   */
  method MakeScripts(fs: FileSystem, out: Path, utilDir: Path, args: Args) returns (r: Outcome<DockerError>, final: Args)
    requires fs.Valid()
    modifies fs
    ensures fs.Valid()
    ensures var build, deploy := out + ["build"], out + ["deploy"];
            var withBuild := args["buildscript" := PathString(build)];
            var buildText := RenderBuild(old(fs.tree), utilDir, args);
            var deployText := RenderDeploy(old(fs.tree), utilDir, withBuild);
            var builds := buildText.Success? && old(fs.tree).IsDir(out) && !old(fs.tree).IsDir(build);
            && (r.Pass? <==> builds && deployText.Success? && !old(fs.tree).IsDir(deploy))
            // the build script is not written: nothing changes
            && (!builds ==>
                  && final == args && fs.tree == old(fs.tree)
                  && r == Fail(if buildText.Failure? then RenderFailure(buildText.error) else FsFailure(CannotOpen(build))))
            // the build script is written and recorded; the deploy script may still fail
            && (builds ==> final == withBuild)
            && (builds && r.Fail? ==>
                  && fs.tree == Written(old(fs.tree), build, buildText.value, true)
                  && r == Fail(if deployText.Failure? then RenderFailure(deployText.error) else FsFailure(CannotOpen(deploy))))
            && (r.Pass? ==>
                  fs.tree == Written(Written(old(fs.tree), build, buildText.value, true), deploy, deployText.value, true))
  {
    ghost var initial := fs.tree;
    final := args;
    var build := MakeScript(fs, out, "build", BuildTemplate(utilDir), final);
    if build.Failure? {
      return Fail(build.error), final;
    }
    final := final["buildscript" := PathString(build.value)];
    TemplatesApart(out, utilDir);
    RenderUnwritten(initial, out + ["build"], fs.tree.files[out + ["build"]], true, DeployTemplate(utilDir), final);
    var deploy := MakeScript(fs, out, "deploy", DeployTemplate(utilDir), final);
    if deploy.Failure? {
      return Fail(deploy.error), final;
    }
    return Pass, final;
  }

  /**
   * The entries create_dockerfile reads or writes are distinct keys. The
   * verifier does not tell string literals apart by itself; their different
   * lengths are the fact it needs.
   */
  lemma KeysDistinct()
    ensures |"version"| == 7 && |"template"| == 8 && |"tag"| == 3 && |"user"| == 4
    ensures |"dockerfile_directory"| == 20 && |"dockerfile"| == 10 && |"buildscript"| == 11
  {
  }

  /** The three generated files are distinct. */
  lemma ArtifactsDistinct(out: Path)
    ensures out + ["Dockerfile"] != out + ["build"]
    ensures out + ["Dockerfile"] != out + ["deploy"]
    ensures out + ["build"] != out + ["deploy"]
  {
    assert (out + ["Dockerfile"])[|out|] == "Dockerfile";
    assert (out + ["build"])[|out|] == "build";
    assert (out + ["deploy"])[|out|] == "deploy";
  }

  /** The Dockerfile written first is still there, unchanged, once both scripts are written. */
  lemma WritesCompose(initial: Tree, afterDockerfile: Tree, done: Tree, out: Path)
    requires var dockerfile := out + ["Dockerfile"];
             dockerfile in afterDockerfile.files &&
             afterDockerfile == Written(Opened(initial, out), dockerfile, afterDockerfile.files[dockerfile], false)
    requires out + ["build"] in done.files && out + ["deploy"] in done.files
    requires done == Written(Written(afterDockerfile, out + ["build"], done.files[out + ["build"]], true),
                             out + ["deploy"], done.files[out + ["deploy"]], true)
    ensures out + ["Dockerfile"] in done.files
    ensures done.files[out + ["Dockerfile"]] == afterDockerfile.files[out + ["Dockerfile"]]
    ensures Written(Opened(initial, out), out + ["Dockerfile"], done.files[out + ["Dockerfile"]], false) == afterDockerfile
  {
    ArtifactsDistinct(out);
  }

  /** How the arguments stand at the end, from what each step adds to them. */
  lemma FinalArguments(resolved: Args, out: Path, written: Args, completed: Args, final: Args)
    requires written == resolved["dockerfile_directory" := PathString(out)]["dockerfile" := PathString(out + ["Dockerfile"])]
    requires completed.Keys == written.Keys + {"tag", "user"}
    requires forall k :: k in written ==> completed[k] == written[k]
    requires final == completed["buildscript" := PathString(out + ["build"])]
    ensures final.Keys == resolved.Keys + {"dockerfile_directory", "dockerfile", "tag", "user", "buildscript"}
    ensures final["dockerfile_directory"] == PathString(out)
    ensures final["dockerfile"] == PathString(out + ["Dockerfile"])
    ensures final["buildscript"] == PathString(out + ["build"])
    ensures forall k :: k in resolved && k !in {"dockerfile_directory", "dockerfile", "buildscript"} ==> final[k] == resolved[k]
    ensures "tag" !in resolved ==> final["tag"] == completed["tag"]
    ensures "user" !in resolved ==> final["user"] == completed["user"]
    ensures "tag" in written <==> "tag" in resolved
    ensures "user" in written <==> "user" in resolved
    ensures Before(final, resolved, "buildscript") == completed
  {
    KeysDistinct();
    assert written.Keys == resolved.Keys + {"dockerfile_directory", "dockerfile"};
    assert "buildscript" in completed <==> "buildscript" in resolved;
    BeforeRestores(completed, resolved, "buildscript", PathString(out + ["build"]));
  }

  /** Setting `k` and then putting it back as it stood in `earlier` restores a map that agreed with `earlier` on `k`. */
  lemma BeforeRestores(m: Args, earlier: Args, k: string, v: string)
    requires k in m <==> k in earlier
    requires k in earlier ==> m[k] == earlier[k]
    ensures Before(m[k := v], earlier, k) == m
  {
  }

  /**
   * What a completed generation leaves behind, for a configuration directory
   * `directory` and arguments `resolved` whose version alias is resolved:
   * the arguments as the call leaves them, and the filesystem after each
   * write, where every render reads the tree as it stands at that point.
   */
  ghost predicate Generated(before: Tree, after: Tree, directory: Path, resolved: Args, utilDir: Path, final: Args)
    requires "version" in resolved
  {
    var out := OutputDir(directory, resolved["version"]);
    var dockerfile, build, deploy := out + ["Dockerfile"], out + ["build"], out + ["deploy"];
    // the arguments
    && final.Keys == resolved.Keys + {"dockerfile_directory", "dockerfile", "tag", "user", "buildscript"}
    && final["version"] == resolved["version"]
    && final["dockerfile_directory"] == PathString(out)
    && final["dockerfile"] == PathString(dockerfile)
    && final["buildscript"] == PathString(build)
    && (forall k :: k in resolved && k !in {"dockerfile_directory", "dockerfile", "buildscript"} ==> final[k] == resolved[k])
    && ("tag" !in resolved ==> GetTag(before, directory, [], DELIMITER) == Success(final["tag"]))
    && ("user" !in resolved ==> final["user"] == DEFAULT_DOCKERFILE_USER)
    // the files
    && dockerfile in after.files && build in after.files && deploy in after.files
    && var afterDockerfile := Written(Opened(before, out), dockerfile, after.files[dockerfile], false);
       var afterBuild := Written(afterDockerfile, build, after.files[build], true);
       && after == Written(afterBuild, deploy, after.files[deploy], true)
       && Render(Opened(before, out), directory + [TemplateName(resolved)],
                 resolved["dockerfile_directory" := PathString(out)]) == Success(after.files[dockerfile])
       && RenderBuild(afterDockerfile, utilDir, Before(final, resolved, "buildscript")) == Success(after.files[build])
       && RenderDeploy(afterBuild, utilDir, final) == Success(after.files[deploy])
  }

  lemma GrowsUnchanged(t: Tree, dirs: set<Path>, files: set<Path>)
    ensures Grows(t, t, dirs, files)
  {
  }

  lemma GrowsOpened(t: Tree, out: Path, files: set<Path>)
    ensures Grows(t, Opened(t, out), Prefixes(out), files)
  {
  }

  lemma GrowsWritten(t: Tree, u: Tree, dirs: set<Path>, files: set<Path>, p: Path, content: string, exec: bool)
    requires Grows(t, u, dirs, files) && p in files
    ensures Grows(t, Written(u, p, content, exec), dirs, files)
  {
  }

  /**
   * When a generation completes, in terms of the tree it starts from: no file
   * stands on the output directory or its ancestors, none of the three files
   * to write is a directory, the tag can be found when it is needed, and each
   * of the three renders succeeds with the arguments it sees.
   */
  ghost predicate Completes(before: Tree, directory: Path, resolved: Args, utilDir: Path)
    requires "version" in resolved
  {
    var out := OutputDir(directory, resolved["version"]);
    var dockerfile, build, deploy := out + ["Dockerfile"], out + ["build"], out + ["deploy"];
    var current := resolved["dockerfile_directory" := PathString(out)];
    var completed := WithDefaults(before, directory, current["dockerfile" := PathString(dockerfile)]);
    && Clear(before, out)
    && !before.IsDir(dockerfile) && !before.IsDir(build) && !before.IsDir(deploy)
    && Render(before, directory + [TemplateName(resolved)], current).Success?
    && completed.Success?
    && RenderBuild(before, utilDir, completed.value).Success?
    && RenderDeploy(before, utilDir, completed.value["buildscript" := PathString(build)]).Success?
  }

  /** The steps of a completed generation, each render stated on the tree the generation starts from, put together. */
  lemma GeneratedFrom(initial: Tree, directory: Path, resolved: Args, utilDir: Path,
                      dockerText: string, completed: Args, buildText: string, deployText: string)
    requires "version" in resolved
    requires var out := OutputDir(directory, resolved["version"]);
             var current := resolved["dockerfile_directory" := PathString(out)];
             var written := current["dockerfile" := PathString(out + ["Dockerfile"])];
             && Render(initial, directory + [TemplateName(resolved)], current) == Success(dockerText)
             && WithDefaults(initial, directory, written) == Success(completed)
             && RenderBuild(initial, utilDir, completed) == Success(buildText)
             && RenderDeploy(initial, utilDir, completed["buildscript" := PathString(out + ["build"])]) == Success(deployText)
    ensures var out := OutputDir(directory, resolved["version"]);
            var afterDockerfile := Written(Opened(initial, out), out + ["Dockerfile"], dockerText, false);
            var afterBuild := Written(afterDockerfile, out + ["build"], buildText, true);
            Generated(initial, Written(afterBuild, out + ["deploy"], deployText, true), directory, resolved, utilDir,
                      completed["buildscript" := PathString(out + ["build"])])
  {
    var out := OutputDir(directory, resolved["version"]);
    var dockerfile, build, deploy := out + ["Dockerfile"], out + ["build"], out + ["deploy"];
    var written := resolved["dockerfile_directory" := PathString(out)]["dockerfile" := PathString(dockerfile)];
    var final := completed["buildscript" := PathString(build)];
    var afterDockerfile := Written(Opened(initial, out), dockerfile, dockerText, false);
    var afterBuild := Written(afterDockerfile, build, buildText, true);
    var done := Written(afterBuild, deploy, deployText, true);
    FinalArguments(resolved, out, written, completed, final);
    ArtifactsDistinct(out);
    ScriptTemplatesKept(initial, out, utilDir, dockerText, buildText, completed, final);
    RenderOpened(initial, out, directory + [TemplateName(resolved)], resolved["dockerfile_directory" := PathString(out)]);
    assert done.files[build] == buildText && done.files[deploy] == deployText;
    WritesCompose(initial, afterDockerfile, done, out);
  }

  /** Once the Dockerfile is written: the directory's tag, the output directory and both script templates are as they were. */
  lemma AfterDockerfile(initial: Tree, directory: Path, version: string, utilDir: Path, dockerText: string, args: Args)
    requires initial.WellFormed() && initial.IsDir(directory)
    ensures var out := OutputDir(directory, version);
            var afterDockerfile := Written(Opened(initial, out), out + ["Dockerfile"], dockerText, false);
            && WithDefaults(afterDockerfile, directory, args) == WithDefaults(initial, directory, args)
            && afterDockerfile.IsDir(out)
            && (afterDockerfile.IsDir(out + ["build"]) <==> initial.IsDir(out + ["build"]))
            && (afterDockerfile.IsDir(out + ["deploy"]) <==> initial.IsDir(out + ["deploy"]))
            && RenderBuild(afterDockerfile, utilDir, args) == RenderBuild(initial, utilDir, args)
            && RenderDeploy(afterDockerfile, utilDir, args["buildscript" := PathString(out + ["build"])])
                 == RenderDeploy(initial, utilDir, args["buildscript" := PathString(out + ["build"])])
  {
    var out := OutputDir(directory, version);
    var afterDockerfile := Written(Opened(initial, out), out + ["Dockerfile"], dockerText, false);
    DefaultsKept(initial, directory, version, dockerText, args);
    assert out[..|out|] == out;
    ChildNotPrefix(out, "build");
    ChildNotPrefix(out, "deploy");
    ScriptTemplatesKept(initial, out, utilDir, dockerText, "", args, args["buildscript" := PathString(out + ["build"])]);
  }

  lemma DefaultsKept(initial: Tree, directory: Path, version: string, dockerText: string, args: Args)
    requires initial.WellFormed() && initial.IsDir(directory)
    ensures var out := OutputDir(directory, version);
            WithDefaults(Written(Opened(initial, out), out + ["Dockerfile"], dockerText, false), directory, args)
              == WithDefaults(initial, directory, args)
  {
    var out := OutputDir(directory, version);
    TagUnaffected(initial, Written(Opened(initial, out), out + ["Dockerfile"], dockerText, false), directory, version);
  }

  /**
   * The steps after the Dockerfile: the `tag` and `user` defaults, then the
   * two scripts. The tree is the one the generation started from, `initial`,
   * with the output directory and the Dockerfile added.
   */
  method Finish(fs: FileSystem, directory: Path, resolved: Args, utilDir: Path, written: Args, ghost initial: Tree, ghost dockerText: string)
    returns (r: Outcome<DockerError>, final: Args)
    requires fs.Valid() && initial.WellFormed() && initial.IsDir(directory) && "version" in resolved
    requires var out := OutputDir(directory, resolved["version"]);
             var dockerfile := out + ["Dockerfile"];
             var current := resolved["dockerfile_directory" := PathString(out)];
             && Clear(initial, out) && !initial.IsDir(dockerfile)
             && Render(initial, directory + [TemplateName(resolved)], current) == Success(dockerText)
             && written == current["dockerfile" := PathString(dockerfile)]
             && fs.tree == Written(Opened(initial, out), dockerfile, dockerText, false)
    modifies fs
    ensures fs.Valid()
    ensures var out := OutputDir(directory, resolved["version"]);
            && Grows(initial, fs.tree, Prefixes(out), {out + ["Dockerfile"], out + ["build"], out + ["deploy"]})
            && (r.Pass? <==> Completes(initial, directory, resolved, utilDir))
            && (r.Pass? ==> Generated(initial, fs.tree, directory, resolved, utilDir, final))
  {
    var out := OutputDir(directory, resolved["version"]);
    ghost var files := {out + ["Dockerfile"], out + ["build"], out + ["deploy"]};
    ghost var afterDockerfile := fs.tree;
    GrowsOpened(initial, out, files);
    GrowsWritten(initial, Opened(initial, out), Prefixes(out), files, out + ["Dockerfile"], dockerText, false);

    var completed := WithDefaults(fs.tree, directory, written);
    AfterDockerfile(initial, directory, resolved["version"], utilDir, dockerText, written);
    if completed.Failure? {
      return Fail(completed.error), written;
    }
    AfterDockerfile(initial, directory, resolved["version"], utilDir, dockerText, completed.value);

    r, final := MakeScripts(fs, out, utilDir, completed.value);
    if fs.tree != afterDockerfile {
      ghost var buildText := fs.tree.files[out + ["build"]];
      GrowsWritten(initial, afterDockerfile, Prefixes(out), files, out + ["build"], buildText, true);
      if r.Pass? {
        GrowsWritten(initial, Written(afterDockerfile, out + ["build"], buildText, true), Prefixes(out), files,
                     out + ["deploy"], fs.tree.files[out + ["deploy"]], true);
      }
    }
    if r.Pass? {
      GeneratedFrom(initial, directory, resolved, utilDir, dockerText, completed.value,
                    RenderBuild(initial, utilDir, completed.value).value,
                    RenderDeploy(initial, utilDir, final).value);
    }
  }

  /**
   * Everything after the version checks: the output directory, the
   * Dockerfile, the `tag` and `user` defaults, then the two scripts. `final`
   * is `resolved` as these steps leave it, whether they complete or not.
   */
  method Generate(fs: FileSystem, directory: Path, resolved: Args, utilDir: Path) returns (r: Outcome<DockerError>, final: Args)
    requires fs.Valid() && fs.tree.IsDir(directory) && "version" in resolved
    modifies fs
    ensures fs.Valid()
    ensures var out := OutputDir(directory, resolved["version"]);
            var template := directory + [TemplateName(resolved)];
            && Grows(old(fs.tree), fs.tree, Prefixes(out), {out + ["Dockerfile"], out + ["build"], out + ["deploy"]})
            && (Blocked(old(fs.tree), out) ==>
                  && (exists j :: 0 <= j < |out| && old(fs.tree).IsFile(out[..j]) && r == Fail(FsFailure(NotADirectory(out[..j]))))
                  && fs.tree == old(fs.tree) && final == resolved)
            && (!Blocked(old(fs.tree), out) && !old(fs.tree).IsFile(template) ==>
                  && r == Fail(RenderFailure(TemplateNotFound(template)))
                  && fs.tree == (if old(fs.tree).IsFile(out) then old(fs.tree) else Opened(old(fs.tree), out))
                  && final == resolved["dockerfile_directory" := PathString(out)])
            && (r.Pass? <==> Completes(old(fs.tree), directory, resolved, utilDir))
            && (r.Pass? ==> Generated(old(fs.tree), fs.tree, directory, resolved, utilDir, final))
  {
    var version := resolved["version"];
    ghost var initial := fs.tree;
    var out := OutputDir(directory, version);
    ghost var files := {out + ["Dockerfile"], out + ["build"], out + ["deploy"]};
    GrowsUnchanged(initial, Prefixes(out), files);
    GrowsOpened(initial, out, files);
    ClearOrBlocked(initial, out);

    r, final := MakeDockerfile(fs, directory, version, resolved);
    if r.Pass? {
      r, final := Finish(fs, directory, resolved, utilDir, final, initial, fs.tree.files[out + ["Dockerfile"]]);
    }
  }

  /**
   * `create_dockerfile(root_file, args)`. `rootFile` is the configuration
   * file's resolved path and `utilDir` the directory of the generator module,
   * where the build and deploy templates live. `final` is `args` as the call
   * leaves it, whether it completes or not.
   */
  method CreateDockerfile(fs: FileSystem, rootFile: Path, args: Args, utilDir: Path) returns (r: Outcome<DockerError>, final: Args)
    requires fs.Valid()
    modifies fs
    ensures fs.Valid()
    // the checks made before anything is written
    ensures !old(fs.tree).IsDir(Dirname(rootFile)) ==>
              r == Fail(ConfigDirMissing(Dirname(rootFile))) && fs.tree == old(fs.tree) && final == args
    ensures old(fs.tree).IsDir(Dirname(rootFile)) && ResolveVersion(args).Failure? ==>
              && r == Fail(ResolveVersion(args).error) && fs.tree == old(fs.tree)
              && final == if "version" in args then Alias(args) else args
    // a file in the way of the output directory, or a missing Dockerfile template
    ensures old(fs.tree).IsDir(Dirname(rootFile)) && ResolveVersion(args).Success? ==>
              var out := OutputDir(Dirname(rootFile), Alias(args)["version"]);
              var template := Dirname(rootFile) + [TemplateName(args)];
              && (Blocked(old(fs.tree), out) ==>
                    && (exists j :: 0 <= j < |out| && old(fs.tree).IsFile(out[..j]) && r == Fail(FsFailure(NotADirectory(out[..j]))))
                    && fs.tree == old(fs.tree) && final == Alias(args))
              && (!Blocked(old(fs.tree), out) && !old(fs.tree).IsFile(template) ==>
                    && r == Fail(RenderFailure(TemplateNotFound(template)))
                    && fs.tree == (if old(fs.tree).IsFile(out) then old(fs.tree) else Opened(old(fs.tree), out))
                    && final == Alias(args)["dockerfile_directory" := PathString(out)])
    // whatever happens, only the output directory and its three files can appear or change
    ensures "version" !in args ==> fs.tree == old(fs.tree)
    ensures "version" in args ==>
              var out := OutputDir(Dirname(rootFile), Alias(args)["version"]);
              Grows(old(fs.tree), fs.tree, Prefixes(out), {out + ["Dockerfile"], out + ["build"], out + ["deploy"]})
    // when a run completes, and what it leaves behind
    ensures r.Pass? <==>
              && old(fs.tree).IsDir(Dirname(rootFile))
              && ResolveVersion(args).Success?
              && Completes(old(fs.tree), Dirname(rootFile), Alias(args), utilDir)
    ensures r.Pass? ==>
              && ResolveVersion(args).Success?
              && Generated(old(fs.tree), fs.tree, Dirname(rootFile), Alias(args), utilDir, final)
  {
    final := args;
    var directory := Dirname(rootFile);
    if !fs.tree.IsDir(directory) {
      return Fail(ConfigDirMissing(directory)), final;
    }
    if "version" in final {
      final := Alias(final);
    }
    var resolved := ResolveVersion(args);
    if resolved.Failure? {
      return Fail(resolved.error), final;
    }
    KeysDistinct();
    assert TemplateName(final) == TemplateName(args);
    r, final := Generate(fs, directory, final, utilDir);
  }

  /**
   * The keyword arguments a configuration supplies when every value is a
   * string (the configuration fields the templates can use).
   */
  function TextArguments(conf: Parser.Configuration): (r: Option<Args>)
    ensures r.Some? <==> forall k :: k in conf ==> conf[k].JString?
    ensures r.Some? ==> r.value.Keys == conf.Keys && forall k :: k in conf ==> conf[k] == Parser.JString(r.value[k])
  {
    if forall k :: k in conf ==> conf[k].JString? then Some(map k | k in conf :: conf[k].s) else None
  }

  lemma TextArgumentsExample(version: string)
    ensures TextArguments(map["gcloud_version" := Parser.JString("226.0.0-slim"), "node_version" := Parser.JString(version),
                              "version" := Parser.JString("node_version")])
         == Some(map["gcloud_version" := "226.0.0-slim", "node_version" := version, "version" := "node_version"])
  {
    var conf := map["gcloud_version" := Parser.JString("226.0.0-slim"), "node_version" := Parser.JString(version),
                    "version" := Parser.JString("node_version")];
    var args := map["gcloud_version" := "226.0.0-slim", "node_version" := version, "version" := "node_version"];
    assert |"gcloud_version"| == 14 && |"node_version"| == 12 && |"version"| == 7;
    assert forall k :: k in conf ==> conf[k].JString?;
    var r := TextArguments(conf).value;
    assert r.Keys == args.Keys;
    assert r["gcloud_version"] == "226.0.0-slim" && r["node_version"] == version && r["version"] == "node_version";
    assert forall k :: k in r ==> r[k] == args[k];
    assert r == args;
  }

  /** The documented descriptor's two configurations as keyword arguments. */
  lemma ExampleArguments()
    ensures var cs := Parser.Configurations(Parser.ExampleDescriptor, Parser.ExampleOrder);
            && |cs| == 2
            && TextArguments(cs[0]) == Some(map["gcloud_version" := "226.0.0-slim", "node_version" := "8.0.0", "version" := "node_version"])
            && TextArguments(cs[1]) == Some(map["gcloud_version" := "226.0.0-slim", "node_version" := "9.11.2", "version" := "node_version"])
  {
    Parser.DocumentedExample();
    TextArgumentsExample("8.0.0");
    TextArgumentsExample("9.11.2");
  }

  /** The example repository: `node/gcloud` under the root, and the generator module in `util`. */
  const ExampleDirectory: Path := ["repo", "node", "gcloud"]
  const ExampleUtilDir: Path := ["repo", "util"]
  const ExampleTemplate: Path := ["repo", "node", "gcloud", "Dockerfile.template"]

  /** The sentinel, the Dockerfile template of `node/gcloud` and the two (empty) script templates. */
  const ExampleTree: Tree :=
    Tree({[], ["repo"], ["repo", "node"], ["repo", "node", "gcloud"], ["repo", "util"], ["repo", "util", "templates"]},
         map[["repo", ROOT] := "",
             ExampleTemplate := "FROM gcloud:{gcloud_version}",
             ["repo", "util", "templates", "build.template"] := "",
             ["repo", "util", "templates", "deploy.template"] := ""],
         {})

  /** The arguments of the example's configuration with node version `version`. */
  function ExampleArgs(version: string): (r: Args)
    ensures r.Keys == {"gcloud_version", "node_version", "version"}
  {
    map["gcloud_version" := "226.0.0-slim", "node_version" := version, "version" := "node_version"]
  }

  /**
   * The example's path segments. The verifier does not tell string literals
   * apart by itself; their different lengths are the fact it needs.
   */
  lemma ExampleNames()
    ensures |ROOT| == 5 && |"Dockerfile.template"| == 19 && |"images"| == 6 && |"util"| == 4 && |"node"| == 4
    ensures |"templates"| == 9 && |"gcloud"| == 6 && |"build.template"| == 14 && |"deploy.template"| == 15
  {
  }

  /** Every directory of the example but the root sits in a directory of the example. */
  lemma ExampleDirsClosed()
    ensures forall p :: p in ExampleTree.dirs && p != [] ==> Dirname(p) in ExampleTree.dirs
  {
    forall p | p in ExampleTree.dirs && p != [] ensures Dirname(p) in ExampleTree.dirs {
      if p == ["repo"] {
        assert Dirname(p) == [];
      } else if p == ["repo", "node"] || p == ["repo", "util"] {
        assert Dirname(p) == ["repo"];
      } else if p == ["repo", "node", "gcloud"] {
        assert Dirname(p) == ["repo", "node"];
      } else {
        assert Dirname(p) == ["repo", "util"];
      }
    }
  }

  /** A file path of the example sits in a directory of the example and is not one. */
  lemma ExampleFilePlaced(parent: Path, name: string)
    requires parent in ExampleTree.dirs
    requires name in {ROOT, "Dockerfile.template", "build.template", "deploy.template"}
    ensures var p := parent + [name]; p != [] && Dirname(p) in ExampleTree.dirs && p !in ExampleTree.dirs
  {
    ExampleNames();
    assert Dirname(parent + [name]) == parent;
  }

  /** Every file of the example sits in a directory of the example and is not one. */
  lemma ExampleFilesPlaced()
    ensures forall p :: p in ExampleTree.files ==> p != [] && Dirname(p) in ExampleTree.dirs && p !in ExampleTree.dirs
  {
    ExampleFilePlaced(["repo"], ROOT);
    ExampleFilePlaced(ExampleDirectory, "Dockerfile.template");
    ExampleFilePlaced(["repo", "util", "templates"], "build.template");
    ExampleFilePlaced(["repo", "util", "templates"], "deploy.template");
    assert ["repo"] + [ROOT] == ["repo", ROOT];
    assert ExampleDirectory + ["Dockerfile.template"] == ExampleTemplate;
    assert ["repo", "util", "templates"] + ["build.template"] == ["repo", "util", "templates", "build.template"];
    assert ["repo", "util", "templates"] + ["deploy.template"] == ["repo", "util", "templates", "deploy.template"];
  }

  lemma ExampleWellFormed()
    ensures ExampleTree.WellFormed()
  {
    ExampleDirsClosed();
    ExampleFilesPlaced();
  }

  /** The example's tag, on the full example tree. */
  lemma ExampleTag()
    ensures GetTag(ExampleTree, ExampleDirectory, [], DELIMITER) == Success("node-gcloud")
  {
    var t := Tree({[], ["repo"], ["repo", "node"], ["repo", "node", "gcloud"]}, map[["repo", ROOT] := ""], {});
    var u, d := ExampleTree, ExampleDirectory;
    ExampleNames();
    NodeGcloudExample();
    forall j | 0 <= j <= |d| ensures t.IsDir(d[..j]) <==> u.IsDir(d[..j]) {
      assert d[..j] in t.dirs by {
        assert j == 0 || j == 1 || j == 2 || j == 3;
        assert d[..0] == [] && d[..1] == ["repo"] && d[..2] == ["repo", "node"] && d[..3] == d;
      }
    }
    forall j | 0 <= j <= |d| ensures HasSentinel(t, d[..j]) <==> HasSentinel(u, d[..j]) {
      var q := d[..j] + [ROOT];
      assert q[|q| - 1] == ROOT && |q| == j + 1;
      if j == 1 {
        assert q == ["repo", ROOT];
      } else if j == 2 {
        assert q[1] == "node";
      }
    }
    GetTagFrame(t, u, d, [], DELIMITER);
  }

  /** No file stands on the example's output directory, and none of the three outputs is a directory. */
  lemma ExampleClear(version: string)
    ensures var out := OutputDir(ExampleDirectory, version);
            && Clear(ExampleTree, out)
            && !ExampleTree.IsDir(out + ["Dockerfile"]) && !ExampleTree.IsDir(out + ["build"]) && !ExampleTree.IsDir(out + ["deploy"])
  {
    ExampleNames();
    var out := OutputDir(ExampleDirectory, version);
    forall j | 0 <= j <= |out| ensures !ExampleTree.IsFile(out[..j]) {
      if j == 2 {
        assert out[..j][1] == "node";
      } else if j == 4 {
        assert out[..j][1] == "node" && out[..j][3] == "images";
      }
    }
  }

  /** The example's Dockerfile template renders with any arguments that give `gcloud_version`. */
  lemma ExampleDockerfileRenders(args: Args)
    requires "gcloud_version" in args && args["gcloud_version"] == "226.0.0-slim"
    ensures Render(ExampleTree, ExampleTemplate, args) == Success("FROM gcloud:226.0.0-slim")
  {
    GcloudExample();
    FormatIgnoresExtraKeys("FROM gcloud:{gcloud_version}", map["gcloud_version" := "226.0.0-slim"], args);
  }

  /** The example's script templates are empty, so they render with any arguments. */
  lemma ExampleScriptsRender(args: Args)
    ensures RenderBuild(ExampleTree, ExampleUtilDir, args) == Success("")
    ensures RenderDeploy(ExampleTree, ExampleUtilDir, args) == Success("")
  {
    assert BuildTemplate(ExampleUtilDir) == ["repo", "util", "templates", "build.template"];
    assert DeployTemplate(ExampleUtilDir) == ["repo", "util", "templates", "deploy.template"];
  }

  /** In the example repository, the run for any non-empty node version completes. */
  lemma ExampleCompletes(version: string)
    requires version != ""
    ensures ResolveVersion(ExampleArgs(version)) == Success(ExampleArgs(version)["version" := version])
    ensures Completes(ExampleTree, ExampleDirectory, Alias(ExampleArgs(version)), ExampleUtilDir)
  {
    var args := ExampleArgs(version);
    KeysDistinct();
    var resolved := args["version" := version];
    assert Alias(args) == resolved;
    var out := OutputDir(ExampleDirectory, version);
    var current := resolved["dockerfile_directory" := PathString(out)];
    var written := current["dockerfile" := PathString(out + ["Dockerfile"])];
    ExampleClear(version);
    assert ExampleDirectory + [TemplateName(resolved)] == ExampleTemplate;
    ExampleDockerfileRenders(current);
    ExampleTag();
    var completed := WithDefaults(ExampleTree, ExampleDirectory, written);
    assert completed.Success?;
    ExampleScriptsRender(completed.value);
    ExampleScriptsRender(completed.value["buildscript" := PathString(out + ["build"])]);
  }

  /** A completed generation in the example writes into `images/<version>` and tags the image `node-gcloud`. */
  lemma ExampleGenerated(version: string, resolved: Args, after: Tree, final: Args)
    requires resolved == ExampleArgs(version)["version" := version]
    requires Generated(ExampleTree, after, ExampleDirectory, resolved, ExampleUtilDir, final)
    ensures final["tag"] == "node-gcloud"
    ensures final["user"] == DEFAULT_DOCKERFILE_USER
    ensures final["dockerfile_directory"] == PathString(ExampleDirectory + ["images", version])
  {
    KeysDistinct();
    ExampleTag();
    assert "tag" !in resolved && "user" !in resolved;
  }

  /**
   * The documented run, for either configuration of the example: in
   * `node/gcloud` under the repository root the version resolves through the
   * alias, the run completes, and a completed generation writes into
   * `images/<version>` and tags the image `node-gcloud`.
   */
  lemma ExampleRun(version: string, after: Tree, final: Args)
    requires version != ""
    ensures var args := ExampleArgs(version);
            && ExampleTree.WellFormed()
            && ResolveVersion(args).Success?
            && Alias(args)["version"] == version
            && Completes(ExampleTree, ExampleDirectory, Alias(args), ExampleUtilDir)
            && (Generated(ExampleTree, after, ExampleDirectory, Alias(args), ExampleUtilDir, final) ==>
                  && final["tag"] == "node-gcloud"
                  && final["user"] == DEFAULT_DOCKERFILE_USER
                  && final["dockerfile_directory"] == PathString(ExampleDirectory + ["images", version]))
  {
    ExampleWellFormed();
    ExampleCompletes(version);
    var resolved := Alias(ExampleArgs(version));
    if Generated(ExampleTree, after, ExampleDirectory, resolved, ExampleUtilDir, final) {
      ExampleGenerated(version, resolved, after, final);
    }
  }
}

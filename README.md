# docker-images: configuration expansion and Dockerfile generation, in Dafny

This project models the two pieces of logic in the `docker-images` generator:

- **Configuration expansion** (`util/parser.py`). A parsed JSON descriptor is split into string-valued and list-valued fields. The generator yields one concrete configuration per element of the Cartesian product of the lists, with the string fields laid over each one.
- **Dockerfile generation** (`util/utils.py`). For one concrete configuration, `create_dockerfile` does the following:
  - resolves the one-level `version` alias;
  - creates `<directory>/images/<version>`;
  - renders the Dockerfile template into `Dockerfile`;
  - fills in a default `tag` and `user`, finding the tag by walking up to the nearest `.root` sentinel (`get_tag`);
  - renders the fixed build and deploy templates into the executable scripts `build` and `deploy`.

  Each step adds a path to the argument dictionary before the next render reads it.

Modules, one per concern:

| file | module | models |
|---|---|---|
| `Wrappers.dfy` | `Wrappers` | `Option`, `Result` and `Outcome` (an error or nothing) |
| `Parser.dfy` | `Parser` | `_collect` (a loop filling two maps), `itertools.product`, `_cross_product`, `parse` (a loop over the product laying the scalars over each dictionary) |
| `FileTree.dfy` | `FileTree` | the filesystem as a value `Tree` (directories, files with their text, execute bits) inside a mutable `FileSystem` object whose methods are `create_dir`, `_create_file`, `make_executable`, `_create_script` |
| `Tags.dfy` | `Tags` | `get_tag` |
| `Templates.dfy` | `Templates` | `str.format(**args)` for keyword fields and `{{`/`}}` escapes; `render`, `render_build`, `render_deploy` |
| `Dockerfiles.dfy` | `Dockerfiles` | `create_dockerfile`, split into its stages, each a method on the `FileSystem` |

Modelling choices:

- **Dictionary iteration order.** Python 2 iterates a dict in an order of its own. Every operation that depends on that order takes an `order` parameter: any enumeration of the descriptor's keys, each key once. Every property is proved for every such order. The list-valued keys are taken in the order this gives them. CPython 2's separate `lists` dictionary may iterate them in another relative order, but every order of the list keys is the filter of some descriptor order, so no case is lost.
- **Paths.** A path is the sequence of its segments, and the root is `[]`. `os.path.join`, `dirname` and `basename` become sequence operations. `PathString` gives the text that the generator stores in the argument dictionary.
- **The filesystem is ordinary (non-ghost) state.** Rendering reads a template's text out of the tree, and that text ends up in the files the generator writes and in its results. The failures the generator can meet are returned as values:
  - a file where `makedirs` needs a directory;
  - `open` on a missing parent or on a directory;
  - `make_executable` on a non-file;
  - a missing template;
  - a missing placeholder value.
- **Arguments.** The argument dictionary that reaches `create_dockerfile` is a `map<string, string>`. `Dockerfiles.TextArguments` turns a parsed configuration into one when every value is a string.
- **The version and the tag, as the code does them.**
  - After alias resolution, `args["version"]` itself holds the effective version, so every later render sees the resolved value.
  - Alias resolution is one lookup: `a→b→c` gives `b`.
  - `get_tag` at a root without a sentinel is handled as described under "## Findings".

## Model

| member | source | states |
|---|---|---|
| Parser.Collect | util/parser.py:55-65 | succeeds exactly when every value is a string or a list. On success it returns the string fields and the list fields, which are disjoint and together cover every key. Otherwise the error is for the first unsupported value in iteration order. |
| Parser.Product | util/parser.py:71 | `itertools.product` of the pools has as many tuples as the product of the pool sizes |
| Parser.ProductOccurrences | util/parser.py:71 | the number of times a tuple occurs in `itertools.product` is the product, over the pools, of the number of times each of its elements occurs in its pool |
| Parser.ProductCount | util/parser.py:71 | every tuple occurs in `itertools.product` as many times as the product, over the pools, of its element's multiplicity in each pool |
| Parser.MultiplicityPositive | util/parser.py:71 | a tuple has a non-zero multiplicity exactly when it takes one member from each pool, in pool order |
| Parser.ProductMembership | util/parser.py:71 | a tuple is in the product if and only if it takes one member from each pool |
| Parser.ProductTupleLength | util/parser.py:71 | every tuple of the product has one element per pool |
| Parser.ProductDistinct | util/parser.py:71 | pools without repeated members give a product without repeated tuples |
| Parser.ProductOrder | util/parser.py:71 | the first pool varies slowest: entry `i * n + j` is the first pool's `i`-th member in front of the `j`-th tuple of the rest |
| Parser.SizeZero | util/parser.py:71 | an empty pool makes the product size zero |
| Parser.Zip | util/parser.py:72 | `dict(zip(keys, tuple))` has exactly the keys, and with distinct keys each key maps to the element at its position |
| Parser.ZipRecovers | util/parser.py:72 | zipping the keys with the values that a map gives them rebuilds that map |
| Parser.ListKeys | util/parser.py:69 | `dictionary.keys()` of the list fields: only list-valued keys of the descriptor, in the iteration order |
| Parser.CrossProduct | util/parser.py:68-72 | `_cross_product` yields as many dictionaries as the product of the list sizes, each with exactly the dictionary's keys |
| Parser.ListKeysOrder | util/parser.py:69-70 | the list-valued keys, in iteration order, are distinct and are exactly the list-valued keys of the descriptor |
| Parser.YieldedAreConfigurations | util/parser.py:50-52 | laying the scalars over each dictionary of the cross product, in order, yields the configurations |
| Parser.LayOver | util/parser.py:50-52 | yields one dictionary per product dictionary, in order, each updated with the scalars |
| Parser.Parse | util/parser.py:40-52 | succeeds exactly when `_collect` does, with the same first error. On success it yields the configurations, in product order. |
| Parser.Configurations | util/parser.py:49-52 | what `parse` yields: as many configurations as the product of the list sizes, each holding every list field and every string field |
| Parser.ConfigurationAt | util/parser.py:49-72 | the `i`-th configuration is the `i`-th product tuple zipped with the list keys, under the scalars, and that tuple takes one member from each list |
| Parser.ConfigurationCount | util/parser.py:50-72 | there are as many configurations as the product of the list lengths: exactly one without list fields, none when some list is empty |
| Parser.ConfigurationKeys | util/parser.py:49-72 | every configuration has exactly the descriptor's keys |
| Parser.ScalarsCarried | util/parser.py:51-52 | every string field appears in every configuration with its original value |
| Parser.ListFieldMember | util/parser.py:71-72 | in every configuration each list field holds a member of its list |
| Parser.EveryChoiceYielded | util/parser.py:71-72 | every choice of one member per list, under the scalars, is among the configurations |
| Parser.ChoiceTuple | util/parser.py:71-72 | every choice of list members corresponds to a combination tuple of the pools in key order |
| Parser.ConfigurationsDistinct | util/parser.py:71-72 | when no list repeats a member, no configuration is yielded twice; with EveryChoiceYielded, each combination appears exactly once |
| Parser.DocumentedExample | util/parser.py:9-34 | the documented descriptor yields exactly the two documented configurations, in that order |
| FileTree.Dirname | util/utils.py:135 | `os.path.dirname`: the path without its last segment, and the root for the root |
| FileTree.PathString | util/utils.py:178 | the text of an absolute path begins with `/` |
| FileTree.PathStringJoin | util/utils.py:195 | `os.path.join(parent, name)` is the parent's text, a `/` unless the parent is the root, then the name |
| FileTree.AncestorsAreDirs | util/utils.py:178-180 | in a well-formed tree, every prefix of a directory path is a directory |
| FileTree.FileSystem.CreateDir | util/utils.py:171-184 | fails exactly when a proper prefix of the joined path is a file, reporting that prefix and changing nothing. Otherwise it returns the joined path and adds it and all its prefixes as directories; an existing directory is tolerated, and a file at the path itself is left as it is. The tree stays well formed. |
| FileTree.FileSystem.CreateFile | util/utils.py:187-198 | succeeds exactly when the parent is a directory and the path is not one, replacing any earlier content with exactly the given text and returning the path. Otherwise it fails and changes nothing. |
| FileTree.FileSystem.MakeExecutable | util/utils.py:201-206 | sets the execute bit of a file and nothing else; a non-file is refused with nothing changed |
| FileTree.FileSystem.CreateScript | util/utils.py:209-219 | the file is written and made executable, or, when it cannot be opened, nothing changes |
| Tags.Join | util/utils.py:59 | joining no segments gives the empty string, and one segment gives itself |
| Tags.GetTag | util/utils.py:44-62 | a non-directory is refused; a tag is only returned when some ancestor-or-self lists the sentinel |
| Tags.NearestSentinelUnique | util/utils.py:58-62 | the nearest sentinel-holding ancestor is unique |
| Tags.GetTagFound | util/utils.py:56-62 | when the nearest sentinel is at depth `i`, the tag is the base names below depth `i`, shallowest first, followed by the accumulated path, joined by the delimiter |
| Tags.GetTagSound | util/utils.py:56-62 | every returned tag is the one built from the nearest sentinel-holding ancestor |
| Tags.GetTagWalkFails | util/utils.py:58-62 | when all ancestors are directories, the only failure is that no sentinel was found |
| Tags.GetTagSpec | util/utils.py:44-62 | in a well-formed tree, from a directory, the tag exists if and only if an ancestor-or-self lists `.root`. It is built from the nearest such ancestor, so a directory that itself holds the sentinel gets the empty tag. Otherwise the error is "sentinel not found". |
| Tags.GetTagAtNearest | util/utils.py:46-62 | from the nearest sentinel at depth `i`, the tag is the segments below `i` joined by `-` |
| Tags.Nearest | util/utils.py:58-62 | when some ancestor lists the sentinel, a unique nearest one exists |
| Tags.GetTagFrame | util/utils.py:54-62 | the tag depends only on which ancestors are directories and which list the sentinel |
| Tags.GetTagAsWritten | util/utils.py:44-62 | the code as written, run for a bounded number of calls: a non-directory is refused, and "no sentinel found" is never reported |
| Tags.AsWrittenNeverReturns | util/utils.py:58-62 | from any directory whose ancestors are all directories and none lists the sentinel, the code as written does not return for any number of calls |
| Tags.AsWrittenLoopsAtRoot | util/utils.py:60-62 | the code as written, started at a root without a sentinel, does not return for any number of calls |
| Tags.AsWrittenAgrees | util/utils.py:44-62 | wherever the code as written returns, it returns what `GetTag` returns |
| Tags.AsWrittenFinds | util/utils.py:44-62 | where a sentinel lies above the start, the code as written returns `GetTag`'s tag after one call per level walked |
| Tags.NodeGcloudExample | util/utils.py:46-48 | with the sentinel in `repo`, the tag of `repo/node/gcloud` is `node-gcloud` |
| Templates.Prefixed | util/utils.py:77 | putting literal text in front keeps a success a success with that text prepended, and keeps an error unchanged |
| Templates.CloseBrace | util/utils.py:77 | finds the first `}` of the text, or reports that there is none |
| Templates.Format | util/utils.py:77 | never reports a missing template; a missing placeholder is a name absent from the arguments; text without braces comes back unchanged |
| Templates.CloseBraceAfter | util/utils.py:77 | a field name without `}` is closed by the `}` after it |
| Templates.FormatUnparse | util/utils.py:77 | formatting text built from literal characters (braces escaped) and keyword fields replaces every field by its value, in order. The first field with no value is the error. |
| Templates.FormatEscape | util/utils.py:77 | `{{` and `}}` render as one brace in front of the rest's result |
| Templates.FormatField | util/utils.py:77 | a keyword field renders as its value in front of the rest's result, or is the missing-placeholder error |
| Templates.FormatIgnoresExtraKeys | util/utils.py:77 | adding arguments to a successful format does not change its result |
| Templates.FormatChar | util/utils.py:77 | a character other than a brace is copied to the front of the rest's result |
| Templates.PrefixedTwice | util/utils.py:77 | prefixing twice is prefixing once with the two texts together |
| Templates.FormatLiteralPrefix | util/utils.py:77 | brace-free text is copied unchanged in front of the rest's result |
| Templates.FormatSingleField | util/utils.py:77 | a lone keyword field renders as its value, or reports itself missing |
| Templates.Render | util/utils.py:65-77 | fails with "template not found" exactly when the template is not a file; otherwise formats the file's text with the arguments |
| Templates.RenderBuild | util/utils.py:80-87 | renders `templates/build.template` of the utility directory, with the same two cases |
| Templates.RenderDeploy | util/utils.py:90-97 | renders `templates/deploy.template` of the utility directory, with the same two cases |
| Templates.GcloudExample | util/utils.py:65-77 | `FROM gcloud:{gcloud_version}` renders to `FROM gcloud:226.0.0-slim`, and with no arguments reports `gcloud_version` missing |
| Dockerfiles.Alias | util/utils.py:139-141 | when `version` names a key, `version` takes that key's value (one level only); otherwise the arguments are unchanged. The other keys keep their values. |
| Dockerfiles.AliasExamples | util/utils.py:139-141 | `node_version` resolves to `9.11.2`, a literal version stays, and `a→b→c` stops at `b` |
| Dockerfiles.ResolveVersion | util/utils.py:139-143 | succeeds exactly when `version` is present and its resolved value is non-empty, giving the resolved arguments. A missing `version` key is `NoVersionField`, and an empty resolved value is `EmptyVersion`. |
| Dockerfiles.OutputDir | util/utils.py:145 | `os.path.join(directory, "images", version)`: two segments below the directory, `images` then the version |
| Dockerfiles.TemplateName | util/utils.py:148 | the `template` argument when given, `Dockerfile.template` otherwise |
| Dockerfiles.Before | util/utils.py:163-165 | the map with one key restored to its earlier state: present with its earlier value, or absent. The other keys are as they are now. |
| Dockerfiles.TagUnaffected | util/utils.py:145-158 | creating the output directories and the Dockerfile does not change the tag that is computed after them |
| Dockerfiles.WithDefaults | util/utils.py:157-161 | fails exactly when `tag` is absent and `get_tag` fails. Otherwise it adds `tag` (from `get_tag`) and `user` (`tslno`) only when absent and keeps every given value. |
| Dockerfiles.MakeDockerfile | util/utils.py:145-155 | a file on a proper ancestor of `images/<version>` makes `makedirs` fail with nothing changed and `args` as given. Otherwise `dockerfile_directory` is recorded. The step completes exactly when no file is on the output directory, `Dockerfile` there is not a directory, and the render of the template succeeds. A render error, a missing template included, is returned as it is; an `open` failure is `CannotOpen` of the Dockerfile. On completion the rendered text is written to `Dockerfile` and `dockerfile` is recorded. |
| Dockerfiles.WriteDockerfile | util/utils.py:149-154 | succeeds exactly when the template renders, `out` is a directory and `out/Dockerfile` is not. A render error, a missing template included, or `CannotOpen` is returned otherwise, with nothing changed. On success exactly the rendered text is written, not executable. |
| Dockerfiles.MakeScript | util/utils.py:209-219 | succeeds exactly when the render succeeds, `out` is a directory and `out/name` is not. The render error or `CannotOpen` is returned otherwise, with nothing changed. On success exactly the rendered text is written and made executable. |
| Dockerfiles.MakeScripts | util/utils.py:163-168 | completes exactly when `out` is a directory, neither `build` nor `deploy` in it is one, the build render succeeds with the arguments given, and the deploy render succeeds with `buildscript` added. When `build` is not written nothing changes. Once it is written `buildscript` is recorded, and a deploy failure leaves `build` written. Each error is the one the failing step reports. |
| Dockerfiles.ArtifactsDistinct | util/utils.py:154-168 | the three artifacts are three different files |
| Dockerfiles.WritesCompose | util/utils.py:153-168 | writing the scripts leaves the Dockerfile as written |
| Dockerfiles.FinalArguments | util/utils.py:146-165 | the final arguments are the resolved ones with `dockerfile_directory`, `dockerfile` and `buildscript` overwritten by the artifact paths, and `tag`/`user` only filled in. Removing `buildscript` gives back the arguments the build script was rendered with. |
| Dockerfiles.TemplatesApart | util/utils.py:86-168 | the Dockerfile and the build script are never the build or deploy template that is rendered after them |
| Dockerfiles.ScriptTemplatesKept | util/utils.py:153-168 | writing the Dockerfile leaves both script renders as they were, and writing the build script leaves the deploy render as it was |
| Dockerfiles.DefaultsKept | util/utils.py:145-161 | creating the output directory and writing the Dockerfile leaves the `tag`/`user` defaults as they were |
| Dockerfiles.AfterDockerfile | util/utils.py:145-166 | once the output directory and the Dockerfile exist, the defaults, the two script templates and the directory-ness of `build` and `deploy` are as they were |
| Dockerfiles.Finish | util/utils.py:157-168 | the defaults and the two scripts: completes exactly when `Completes` holds of the starting tree, and then leaves the artifact set that `Generated` describes; only the output directory's three files can change |
| Dockerfiles.GeneratedFrom | util/utils.py:145-168 | the three renders, stated on the starting tree, and the defaults together give the full description of a generated artifact set |
| Dockerfiles.Generate | util/utils.py:145-168 | the tree grows only by the output directory and its three files. A file on the way to the output directory is reported as `NotADirectory` of that file, with nothing changed. A missing template is reported as `TemplateNotFound`, with only the output directory created, or with nothing changed when a file already stands at the output directory itself. A run completes exactly when `Completes` holds of the starting tree, and then leaves the artifact set that `Generated` describes. |
| Dockerfiles.CreateDockerfile | util/utils.py:128-168 | checks the configuration directory, then the version, changing nothing when either fails. A file on the way to the output directory is reported as `NotADirectory` of that file and changes nothing, and a missing template is reported as `TemplateNotFound`, with only the output directory created, or with nothing changed when a file already stands at the output directory itself. Only the output directory and its three files can ever change. A run completes exactly when the directory exists, the version resolves and `Completes` holds: nothing is in the way, the tag can be found when needed and the three renders succeed. A completed run leaves the artifact set that `Generated` describes: each render reads the arguments as they stood at that point, and the tag is taken from the tree as it stood before. |
| Dockerfiles.TextArguments | util/parser.py:59-62 | a parsed configuration is usable as text arguments exactly when all its values are strings, with the same keys and texts |
| Dockerfiles.ExampleArguments | util/parser.py:20-34 | the documented descriptor's two configurations become the two documented argument maps |
| Dockerfiles.ExampleWellFormed | util/utils.py:128-168 | the example repository is a well-formed tree: `.root` in `repo`, the Dockerfile template in `node/gcloud`, and the two script templates in `util/templates` |
| Dockerfiles.ExampleTag | util/utils.py:44-62 | in the full example repository the tag of `repo/node/gcloud` is `node-gcloud` |
| Dockerfiles.ExampleClear | util/utils.py:145-147 | no file stands on the way to `images/<version>` in the example, and none of the three outputs is a directory |
| Dockerfiles.ExampleDockerfileRenders | util/utils.py:149-152 | the example's Dockerfile template renders to `FROM gcloud:226.0.0-slim` with any arguments giving that `gcloud_version` |
| Dockerfiles.ExampleScriptsRender | util/utils.py:80-97 | the example's empty build and deploy templates render to empty scripts with any arguments |
| Dockerfiles.ExampleCompletes | util/utils.py:139-168 | for any non-empty node version the example's version resolves through the alias, and `Completes` holds, so a run in `node/gcloud` completes |
| Dockerfiles.ExampleGenerated | util/utils.py:145-161 | a completed generation in the example records tag `node-gcloud`, user `tslno` and output directory `images/<version>` |
| Dockerfiles.ExampleRun | util/utils.py:139-168 | in the example repository, for any non-empty version the run both completes and, having completed, gets tag `node-gcloud`, user `tslno` and output directory `images/<version>` |

## Findings

| source | as written | input that shows it | evidently intended | confidence | as-written member | corrected member |
|---|---|---|---|---|---|---|
| util/utils.py:58-62 | when the root does not list `.root`, the parent of the root is the root again, so `get_tag` calls itself forever (Python ends it with a recursion error) | a tree with no `.root` file anywhere, starting from any directory | stop at the root and report that no sentinel was found | medium, not executed | Tags.AsWrittenNeverReturns | Tags.GetTagSpec |

`Tags.GetTagAsWritten` runs the code as written with a bound on the number of calls. `Tags.AsWrittenNeverReturns` shows that it never returns from any such start, through `Tags.AsWrittenLoopsAtRoot` at the root. `Tags.AsWrittenAgrees` and `Tags.AsWrittenFinds` show that it returns the same result as the corrected `Tags.GetTag` wherever it returns at all. Everything else in the model uses `GetTag`.

## Left out

- `create` (util/utils.py:23-41): shell globbing, console output and the loop over config files are I/O plumbing. The step from a parsed configuration to arguments is `Dockerfiles.TextArguments`.
- `find_all_scripts` and `exec_all_scripts` (util/utils.py:100-125): a directory walk and running external processes.
- `json.load` and reading the config file: the descriptor arrives already parsed. JSON numbers are integers; floating point is not modelled.
- `os.path.realpath` and `os.path.abspath`: symlinks and `.`/`..` segments are not interpreted. A version or template name is one path segment; a `/` inside one is not split.
- The Python format mini-language beyond keyword fields: positional fields, conversions, format specs, attribute and index access are all reported as `UnsupportedField`. Nested braces inside a field name, which CPython counts when it looks for the closing brace (`{a{b}c}`), are not matched: the model ends the field at the first `}` and reports the text before it as `UnsupportedField`.
- Argument values other than strings: a list element that is not a string makes `TextArguments` return `None`. Python would format such a value with `str()` only where a template uses it. When it is the effective version or the template name, `os.path.join` raises (util/utils.py:145, 149, 178), and a falsy version such as `0` is reported as missing (util/utils.py:142-143).
- Python 2's particular dict order: it is a parameter of the model.
- Generator laziness: `parse` yields its configurations one by one; the model returns them all at once, in the same order.
- Operating-system failures other than the modelled ones: permissions, full disks.
- Unicode errors in `render`: Python 2 reads the template as a byte string (util/utils.py:75-76). `str.format` with a non-ASCII unicode value then raises `UnicodeEncodeError` (util/utils.py:77). `Templates.Format` succeeds on the same input.
- Concurrency: another process changing the tree during a run.
- Dockerfiles.CreateDockerfile: states exactly when a run completes. For a run that fails after the Dockerfile template was found, it states only that nothing but the output directory and its three files changed. It does not say which error is reported or how `final` stands; `MakeDockerfile` and `MakeScripts` state both for their own steps.
- Dockerfiles.Generate: the same gap as `CreateDockerfile`, for failures after the template was found.
- Dockerfiles.Finish: states when the steps complete and what they leave behind, but not which error a failure reports or how `final` stands after one.

/**
 * The local filesystem as util/utils.py sees it: directories, files with
 * their text, and the files whose execute bit is set. The operating-system
 * calls the generator makes (`os.makedirs` behind `create_dir`, `open` behind
 * `_create_file`, `os.chmod` behind `make_executable`) become updates of one
 * mutable `FileSystem` object.
 */
module FileTree {
  import opened Wrappers

  /** An absolute, normalised path as its segments; the root directory is `[]`. */
  type Path = seq<string>

  /** `os.path.dirname`: the parent directory; the root is its own parent. */
  function Dirname(p: Path): (r: Path)
    ensures p != [] ==> |r| == |p| - 1 && p == r + [p[|p| - 1]]
    ensures p == [] ==> r == []
  {
    if p == [] then [] else p[..|p| - 1]
  }

  /** The text form of a path, as `os.path.join` produces it from an absolute directory. */
  function PathString(p: Path): (r: string)
    ensures |r| > 0 && r[0] == '/'
  {
    if p == [] then "/" else PathTail(p)
  }

  function PathTail(p: Path): string {
    if p == [] then "" else "/" + p[0] + PathTail(p[1..])
  }

  lemma {:induction false} PathTailAppend(p: Path, name: string)
    ensures PathTail(p + [name]) == PathTail(p) + "/" + name
  {
    if p != [] {
      assert (p + [name])[1..] == p[1..] + [name];
      PathTailAppend(p[1..], name);
    } else {
      assert [name][1..] == [];
    }
  }

  /**
   * `os.path.join(parent, name)`: the name follows the parent's text after a
   * `/`, which the root's text already ends with.
   */
  lemma PathStringJoin(parent: Path, name: string)
    ensures PathString(parent + [name]) == PathString(parent) + (if parent == [] then "" else "/") + name
  {
    PathTailAppend(parent, name);
    if parent == [] {
      assert parent + [name] == [name];
    }
  }

  /** Every prefix of `p`: the directories `os.makedirs(p)` leaves in place. */
  function Prefixes(p: Path): set<Path> {
    set i | 0 <= i <= |p| :: p[..i]
  }

  datatype Tree = Tree(dirs: set<Path>, files: map<Path, string>, executable: set<Path>) {

    /** `os.path.isdir` */
    predicate IsDir(p: Path) {
      p in dirs
    }

    /** `os.path.isfile` */
    predicate IsFile(p: Path) {
      p in files
    }

    predicate Exists(p: Path) {
      IsDir(p) || IsFile(p)
    }

    /** `name in os.listdir(d)` */
    predicate Lists(d: Path, name: string) {
      Exists(d + [name])
    }

    /** The shape every real filesystem has: a root, parents of everything, and files that are not directories. */
    ghost predicate WellFormed() {
      && [] in dirs
      && (forall p :: p in dirs && p != [] ==> Dirname(p) in dirs)
      && (forall p :: p in files ==> p != [] && Dirname(p) in dirs && p !in dirs)
      && executable <= files.Keys
    }
  }

  /** In a well-formed tree every ancestor of a directory is a directory. */
  lemma {:induction false} AncestorsAreDirs(t: Tree, p: Path, i: nat)
    requires t.WellFormed() && t.IsDir(p) && i <= |p|
    ensures t.IsDir(p[..i])
    decreases |p| - i
  {
    if i < |p| {
      AncestorsAreDirs(t, Dirname(p), i);
      assert Dirname(p)[..i] == p[..i];
    } else {
      assert p[..i] == p;
    }
  }

  /** Adding every prefix of a path that crosses no file, itself included, keeps a tree well formed. */
  lemma OpenedWellFormed(t: Tree, p: Path)
    requires t.WellFormed()
    requires forall j :: 0 <= j < |p| ==> !t.IsFile(p[..j])
    requires !t.IsFile(p)
    ensures t.(dirs := t.dirs + Prefixes(p)).WellFormed()
  {
    forall i | 0 <= i <= |p| ensures !t.IsFile(p[..i]) {
      if i == |p| {
        assert p[..i] == p;
      }
    }
    forall q | q in Prefixes(p) && q != [] ensures Dirname(q) in Prefixes(p) {
      var i :| 0 <= i <= |p| && q == p[..i];
      assert Dirname(q) == p[..i - 1];
    }
  }

  /** The errors the operating system reports to the generator. */
  datatype FsError =
    | NotADirectory(path: Path)  // makedirs met a file where a directory belongs
    | CannotOpen(path: Path)     // open(path, 'w+') failed: no parent directory, or path is a directory
    | NotAFile(path: Path)       // make_executable's own check

  class FileSystem {
    var tree: Tree

    ghost predicate Valid()
      reads this
    {
      tree.WellFormed()
    }

    constructor (initial: Tree)
      requires initial.WellFormed()
      ensures Valid() && tree == initial
    {
      tree := initial;
    }

    /**
     * `create_dir(parent, *paths)`: `os.makedirs` on the joined path, where
     * "already exists" is tolerated and any other failure propagates. A file
     * standing on a proper prefix of the path makes `makedirs` fail; a file
     * at the path itself reads as "already exists".
     */
    method CreateDir(parent: Path, paths: seq<string>) returns (r: Result<Path, FsError>)
      requires Valid()
      modifies this
      ensures Valid()
      ensures var p := parent + paths;
              && (r.Failure? <==> exists j :: 0 <= j < |p| && old(tree).IsFile(p[..j]))
              && (r.Failure? ==> tree == old(tree) && exists j :: 0 <= j < |p| && old(tree).IsFile(p[..j]) && r.error == NotADirectory(p[..j]))
              && (r.Success? ==> r.value == p)
              && (r.Success? && old(tree).IsFile(p) ==> tree == old(tree))
              && (r.Success? && !old(tree).IsFile(p) ==> tree == old(tree).(dirs := old(tree).dirs + Prefixes(p)))
    {
      var p := parent + paths;
      if j :| 0 <= j < |p| && p[..j] in tree.files {
        return Failure(NotADirectory(p[..j]));
      }
      if p !in tree.files {
        OpenedWellFormed(tree, p);
        tree := tree.(dirs := tree.dirs + Prefixes(p));
      }
      return Success(p);
    }

    /** `_create_file(parent, name, content)`: `open(path, 'w+')` and write, replacing any earlier content. */
    method CreateFile(parent: Path, name: string, content: string) returns (r: Result<Path, FsError>)
      requires Valid()
      modifies this
      ensures Valid()
      ensures var p := parent + [name];
              if old(tree).IsDir(parent) && !old(tree).IsDir(p)
              then r == Success(p) && tree == old(tree).(files := old(tree).files[p := content])
              else r == Failure(CannotOpen(p)) && tree == old(tree)
    {
      var p := parent + [name];
      if parent !in tree.dirs || p in tree.dirs {
        return Failure(CannotOpen(p));
      }
      assert Dirname(p) == parent;
      tree := tree.(files := tree.files[p := content]);
      return Success(p);
    }

    /** `make_executable(path)`: refuses anything but a file, then sets the execute bit. */
    method MakeExecutable(p: Path) returns (r: Outcome<FsError>)
      requires Valid()
      modifies this
      ensures Valid()
      ensures if old(tree).IsFile(p)
              then r == Pass && tree == old(tree).(executable := old(tree).executable + {p})
              else r == Fail(NotAFile(p)) && tree == old(tree)
    {
      if p !in tree.files {
        return Fail(NotAFile(p));
      }
      tree := tree.(executable := tree.executable + {p});
      return Pass;
    }

    /** `_create_script(parent, name, content)`: create the file, then make it executable. */
    method CreateScript(parent: Path, name: string, content: string) returns (r: Result<Path, FsError>)
      requires Valid()
      modifies this
      ensures Valid()
      ensures var p := parent + [name];
              if old(tree).IsDir(parent) && !old(tree).IsDir(p)
              then r == Success(p) && tree == old(tree).(files := old(tree).files[p := content],
                                                         executable := old(tree).executable + {p})
              else r == Failure(CannotOpen(p)) && tree == old(tree)
    {
      r := CreateFile(parent, name, content);
      if r.Failure? {
        return;
      }
      var made := MakeExecutable(r.value);
      assert made.Pass?;
    }
  }
}

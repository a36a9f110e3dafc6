/**
 * `get_tag`: the Docker tag of an image is the chain of directory names from
 * the repository root (the nearest ancestor holding the `.root` sentinel)
 * down to the directory of the template, joined by a delimiter.
 */
module Tags {
  import opened Wrappers
  import opened FileTree

  /** The empty file that marks the repository root. */
  const ROOT := ".root"

  /** The default delimiter between directory names in a tag. */
  const DELIMITER := "-"

  datatype TagError =
    | NoSuchDirectory(path: Path)  // the directory handed to get_tag is not a directory
    | SentinelNotFound             // the filesystem root was reached without meeting the sentinel

  /** `delimiter.join(segments)` */
  function Join(segments: seq<string>, delimiter: string): (r: string)
    ensures segments == [] ==> r == ""
    ensures |segments| == 1 ==> r == segments[0]
  {
    if segments == [] then ""
    else if |segments| == 1 then segments[0]
    else segments[0] + delimiter + Join(segments[1..], delimiter)
  }

  predicate HasSentinel(t: Tree, d: Path) {
    t.Lists(d, ROOT)
  }

  /**
   * `get_tag(directory, path, delimiter)`: walks up from `directory`, putting
   * each basename in front of `path`, until a directory lists the sentinel.
   * At the filesystem root, `os.path.abspath` of the parent is the root again,
   * so the walk that never meets a sentinel does not end; here it stops there
   * with `SentinelNotFound`.
   */
  function GetTag(t: Tree, directory: Path, path: seq<string>, delimiter: string): (r: Result<string, TagError>)
    ensures !t.IsDir(directory) ==> r == Failure(NoSuchDirectory(directory))
    ensures r.Success? ==> exists i :: 0 <= i <= |directory| && HasSentinel(t, directory[..i])
    decreases |directory|
  {
    if !t.IsDir(directory) then Failure(NoSuchDirectory(directory))
    else if HasSentinel(t, directory) then
      assert directory[..|directory|] == directory;
      Success(Join(path, delimiter))
    else if directory == [] then Failure(SentinelNotFound)
    else
      var r := GetTag(t, Dirname(directory), [directory[|directory| - 1]] + path, delimiter);
      assert r.Success? ==> exists i :: 0 <= i <= |directory| && HasSentinel(t, directory[..i]) by {
        if r.Success? {
          var i :| 0 <= i <= |Dirname(directory)| && HasSentinel(t, Dirname(directory)[..i]);
          assert Dirname(directory)[..i] == directory[..i];
        }
      }
      r
  }

  /**
   * `i` marks the nearest ancestor-or-self of `d` that holds the sentinel:
   * every directory from there down to `d` exists and none below it holds one.
   */
  ghost predicate NearestSentinel(t: Tree, d: Path, i: int) {
    && 0 <= i <= |d|
    && HasSentinel(t, d[..i])
    && (forall j :: i < j <= |d| ==> !HasSentinel(t, d[..j]))
    && (forall j :: i <= j <= |d| ==> t.IsDir(d[..j]))
  }

  lemma NearestSentinelUnique(t: Tree, d: Path, i: int, k: int)
    requires NearestSentinel(t, d, i) && NearestSentinel(t, d, k)
    ensures i == k
  {
  }

  lemma NearestSentinelParent(t: Tree, d: Path, i: nat)
    requires NearestSentinel(t, d, i) && i < |d|
    ensures NearestSentinel(t, Dirname(d), i)
  {
    forall j | i <= j <= |Dirname(d)| ensures Dirname(d)[..j] == d[..j] {
    }
  }

  /** A directory holding the sentinel is its own nearest one, and the walk stops there. */
  lemma GetTagHere(t: Tree, d: Path, path: seq<string>, delimiter: string)
    requires t.IsDir(d) && HasSentinel(t, d)
    ensures NearestSentinel(t, d, |d|)
    ensures GetTag(t, d, path, delimiter) == Success(Join(d[|d|..] + path, delimiter))
  {
    assert d[..|d|] == d;
    assert d[|d|..] + path == path;
  }

  /** One step of the walk: a directory without the sentinel hands its basename to its parent. */
  lemma GetTagStep(t: Tree, d: Path, path: seq<string>, delimiter: string)
    requires d != [] && t.IsDir(d) && !HasSentinel(t, d)
    ensures GetTag(t, d, path, delimiter) == GetTag(t, Dirname(d), [d[|d| - 1]] + path, delimiter)
  {
  }

  /** The segments below depth `i` of the parent, then the basename, then the path, are those below depth `i` of `d`, then the path. */
  lemma WalkSegments(d: Path, i: nat, path: seq<string>)
    requires d != [] && i < |d|
    ensures Dirname(d)[i..] + ([d[|d| - 1]] + path) == d[i..] + path
  {
    assert d[i..] == Dirname(d)[i..] + [d[|d| - 1]];
  }

  /** The walk from `d` ends at the nearest sentinel and names every directory passed on the way. */
  lemma {:induction false} GetTagFound(t: Tree, d: Path, path: seq<string>, delimiter: string, i: nat)
    requires NearestSentinel(t, d, i)
    ensures GetTag(t, d, path, delimiter) == Success(Join(d[i..] + path, delimiter))
    decreases |d| - i
  {
    assert d[..|d|] == d;
    if i == |d| {
      GetTagHere(t, d, path, delimiter);
    } else {
      NearestSentinelParent(t, d, i);
      GetTagStep(t, d, path, delimiter);
      GetTagFound(t, Dirname(d), [d[|d| - 1]] + path, delimiter, i);
      WalkSegments(d, i, path);
    }
  }

  lemma NearestSentinelChild(t: Tree, d: Path, i: int)
    requires d != [] && t.IsDir(d) && !HasSentinel(t, d)
    requires NearestSentinel(t, Dirname(d), i)
    ensures NearestSentinel(t, d, i)
  {
    forall j | 0 <= j <= |Dirname(d)| ensures Dirname(d)[..j] == d[..j] {
    }
    assert d[..|d|] == d;
  }

  /** A tag only comes from a nearest sentinel. */
  lemma {:induction false} GetTagSound(t: Tree, d: Path, path: seq<string>, delimiter: string)
    requires GetTag(t, d, path, delimiter).Success?
    ensures exists i :: NearestSentinel(t, d, i) && GetTag(t, d, path, delimiter).value == Join(d[i..] + path, delimiter)
    decreases |d|
  {
    assert t.IsDir(d);
    if HasSentinel(t, d) {
      GetTagHere(t, d, path, delimiter);
    } else {
      assert d != [];
      var p := Dirname(d);
      var rest := [d[|d| - 1]] + path;
      GetTagStep(t, d, path, delimiter);
      GetTagSound(t, p, rest, delimiter);
      var i :| NearestSentinel(t, p, i) && GetTag(t, p, rest, delimiter).value == Join(p[i..] + rest, delimiter);
      NearestSentinelChild(t, d, i);
      WalkSegments(d, i, path);
    }
  }

  /** When every ancestor-or-self of `d` is a directory, the only way the walk fails is by reaching the root. */
  lemma {:induction false} GetTagWalkFails(t: Tree, d: Path, path: seq<string>, delimiter: string)
    requires forall j :: 0 <= j <= |d| ==> t.IsDir(d[..j])
    ensures GetTag(t, d, path, delimiter).Failure? ==> GetTag(t, d, path, delimiter) == Failure(SentinelNotFound)
    decreases |d|
  {
    assert d[..|d|] == d;
    if d != [] {
      var p := Dirname(d);
      forall j | 0 <= j <= |p| ensures p[..j] == d[..j] {
      }
      GetTagWalkFails(t, p, [d[|d| - 1]] + path, delimiter);
    }
  }

  /**
   * `get_tag(directory)` with its defaults: in a well-formed filesystem it
   * succeeds exactly when some ancestor-or-self lists the sentinel, the tag
   * is then the basenames below the nearest one joined by `-`, and otherwise
   * the walk fails at the root.
   */
  lemma GetTagSpec(t: Tree, d: Path)
    requires t.WellFormed() && t.IsDir(d)
    ensures GetTag(t, d, [], DELIMITER).Success? <==> exists i :: 0 <= i <= |d| && HasSentinel(t, d[..i])
    ensures forall i :: NearestSentinel(t, d, i) ==> GetTag(t, d, [], DELIMITER) == Success(Join(d[i..], DELIMITER))
    ensures GetTag(t, d, [], DELIMITER).Failure? ==> GetTag(t, d, [], DELIMITER) == Failure(SentinelNotFound)
  {
    if exists i :: 0 <= i <= |d| && HasSentinel(t, d[..i]) {
      var i := Nearest(t, d);
      GetTagAtNearest(t, d, i);
    }
    forall i | NearestSentinel(t, d, i) ensures GetTag(t, d, [], DELIMITER) == Success(Join(d[i..], DELIMITER)) {
      GetTagAtNearest(t, d, i);
    }
    forall j | 0 <= j <= |d| ensures t.IsDir(d[..j]) {
      AncestorsAreDirs(t, d, j);
    }
    GetTagWalkFails(t, d, [], DELIMITER);
  }

  lemma GetTagAtNearest(t: Tree, d: Path, i: int)
    requires NearestSentinel(t, d, i)
    ensures GetTag(t, d, [], DELIMITER) == Success(Join(d[i..], DELIMITER))
  {
    assert d[i..] + [] == d[i..];
    GetTagFound(t, d, [], DELIMITER, i);
  }

  /** Picks the deepest ancestor-or-self of a directory that lists the sentinel. */
  lemma Nearest(t: Tree, d: Path) returns (i: nat)
    requires t.WellFormed() && t.IsDir(d)
    requires exists k :: 0 <= k <= |d| && HasSentinel(t, d[..k])
    ensures NearestSentinel(t, d, i)
  {
    var k :| 0 <= k <= |d| && HasSentinel(t, d[..k]);
    i := k;
    while i < |d| && exists j :: i < j <= |d| && HasSentinel(t, d[..j])
      invariant k <= i <= |d| && HasSentinel(t, d[..i])
      decreases |d| - i
    {
      var j :| i < j <= |d| && HasSentinel(t, d[..j]);
      i := j;
    }
    forall j | i <= j <= |d| ensures t.IsDir(d[..j]) {
      AncestorsAreDirs(t, d, j);
    }
  }

  /** Changes to the filesystem away from `d`'s ancestors and their sentinels leave the tag alone. */
  lemma {:induction false} GetTagFrame(t: Tree, u: Tree, d: Path, path: seq<string>, delimiter: string)
    requires forall j :: 0 <= j <= |d| ==> (t.IsDir(d[..j]) <==> u.IsDir(d[..j]))
    requires forall j :: 0 <= j <= |d| ==> (HasSentinel(t, d[..j]) <==> HasSentinel(u, d[..j]))
    ensures GetTag(t, d, path, delimiter) == GetTag(u, d, path, delimiter)
    decreases |d|
  {
    assert d[..|d|] == d;
    if d != [] {
      var p := Dirname(d);
      forall j | 0 <= j <= |p| ensures p[..j] == d[..j] {
      }
      GetTagFrame(t, u, p, [d[|d| - 1]] + path, delimiter);
    }
  }

  /**
   * `get_tag` as written, run for at most `fuel` calls (`None`: not finished).
   * At the root, `os.path.basename` gives the empty name and the parent is the
   * root again, so the walk has no other way to stop.
   */
  function GetTagAsWritten(t: Tree, directory: Path, path: seq<string>, delimiter: string, fuel: nat): (r: Option<Result<string, TagError>>)
    ensures fuel > 0 && !t.IsDir(directory) ==> r == Some(Failure(NoSuchDirectory(directory)))
    ensures r != Some(Failure(SentinelNotFound))
    decreases fuel
  {
    if fuel == 0 then None
    else if !t.IsDir(directory) then Some(Failure(NoSuchDirectory(directory)))
    else if HasSentinel(t, directory) then Some(Success(Join(path, delimiter)))
    else if directory == [] then GetTagAsWritten(t, [], [""] + path, delimiter, fuel - 1)
    else GetTagAsWritten(t, Dirname(directory), [directory[|directory| - 1]] + path, delimiter, fuel - 1)
  }

  /** Without a sentinel at the root, the walk that reaches the root never returns, however long it runs. */
  lemma {:induction false} AsWrittenLoopsAtRoot(t: Tree, path: seq<string>, delimiter: string, fuel: nat)
    requires t.IsDir([]) && !HasSentinel(t, [])
    ensures GetTagAsWritten(t, [], path, delimiter, fuel) == None
    decreases fuel
  {
    if fuel > 0 {
      AsWrittenLoopsAtRoot(t, [""] + path, delimiter, fuel - 1);
    }
  }

  /**
   * With no sentinel on `d` or any of its ancestors, all of them directories,
   * the code as written never returns, wherever the walk starts.
   */
  lemma {:induction false} AsWrittenNeverReturns(t: Tree, d: Path, path: seq<string>, delimiter: string, fuel: nat)
    requires forall j :: 0 <= j <= |d| ==> t.IsDir(d[..j]) && !HasSentinel(t, d[..j])
    ensures GetTagAsWritten(t, d, path, delimiter, fuel) == None
    decreases |d|
  {
    assert d[..|d|] == d;
    if d == [] {
      AsWrittenLoopsAtRoot(t, path, delimiter, fuel);
    } else if fuel > 0 {
      var p := Dirname(d);
      forall j | 0 <= j <= |p| ensures p[..j] == d[..j] {
      }
      AsWrittenNeverReturns(t, p, [d[|d| - 1]] + path, delimiter, fuel - 1);
    }
  }

  /** Wherever the code as written returns, `GetTag` returns the same. */
  lemma {:induction false} AsWrittenAgrees(t: Tree, d: Path, path: seq<string>, delimiter: string, fuel: nat)
    requires GetTagAsWritten(t, d, path, delimiter, fuel).Some?
    ensures GetTagAsWritten(t, d, path, delimiter, fuel).value == GetTag(t, d, path, delimiter)
    decreases fuel
  {
    if t.IsDir(d) && !HasSentinel(t, d) {
      if d == [] {
        AsWrittenLoopsAtRoot(t, [""] + path, delimiter, fuel - 1);
      } else {
        AsWrittenAgrees(t, Dirname(d), [d[|d| - 1]] + path, delimiter, fuel - 1);
      }
    }
  }

  /** Where the walk meets a sentinel, the code as written returns that tag once given enough calls. */
  lemma {:induction false} AsWrittenFinds(t: Tree, d: Path, path: seq<string>, delimiter: string, i: int)
    requires NearestSentinel(t, d, i)
    ensures GetTagAsWritten(t, d, path, delimiter, |d| - i + 1) == Some(GetTag(t, d, path, delimiter))
    decreases |d| - i
  {
    GetTagFound(t, d, path, delimiter, i);
    if i < |d| {
      assert d[..|d|] == d;
      NearestSentinelParent(t, d, i);
      AsWrittenFinds(t, Dirname(d), [d[|d| - 1]] + path, delimiter, i);
    } else {
      assert d[..i] == d;
    }
  }

  /** The case the documentation names: invoked in `node/gcloud` under the root, the tag is `node-gcloud`. */
  lemma NodeGcloudExample()
    ensures var t := Tree({[], ["repo"], ["repo", "node"], ["repo", "node", "gcloud"]}, map[["repo", ROOT] := ""], {});
            GetTag(t, ["repo", "node", "gcloud"], [], DELIMITER) == Success("node-gcloud")
  {
    var t := Tree({[], ["repo"], ["repo", "node"], ["repo", "node", "gcloud"]}, map[["repo", ROOT] := ""], {});
    var d := ["repo", "node", "gcloud"];
    assert d[..1] == ["repo"] && d[..2] == ["repo", "node"] && d[..3] == d;
    assert ["repo"] + [ROOT] == ["repo", ROOT];
    assert NearestSentinel(t, d, 1);
    GetTagAtNearest(t, d, 1);
    assert d[1..] + [] == ["node", "gcloud"];
    assert ["node", "gcloud"][1..] == ["gcloud"];
    assert d[1..] == ["node", "gcloud"];
    assert Join(["node", "gcloud"], DELIMITER) == "node" + "-" + "gcloud";
    assert "node" + "-" + "gcloud" == "node-gcloud";
  }
}

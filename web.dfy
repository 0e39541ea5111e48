/**
 * The web front end of web/web.go, reduced to its state and its ignore-path
 * bookkeeping: the set of paths the analyzer must skip is rebuilt from a list
 * and queried by exact path.
 */
module Web {
  import opened Wrappers
  import opened Errors
  import Common

  /** The set of the elements of `paths`: order is forgotten and duplicates collapse. */
  function PathSet(paths: seq<string>): (s: set<string>)
    ensures forall p {:trigger p in s} :: p in s <==> p in paths
    ensures |s| <= |paths|
  {
    if paths == [] then {}
    else
      var init := paths[..|paths| - 1];
      assert paths == init + [paths[|paths| - 1]];
      PathSet(init) + {paths[|paths| - 1]}
  }

  /** Taking one more path of the list adds that path to the set. */
  lemma PathSetExtend(paths: seq<string>, i: nat)
    requires i < |paths|
    ensures PathSet(paths[..i + 1]) == PathSet(paths[..i]) + {paths[i]}
  {
    assert paths[..i + 1][..i] == paths[..i];
  }

  /** A reference to an analyzed directory; the directory tree is not part of this model. */
  type FileRef = nat

  /** The web UI. Its analyzer is not part of this model. */
  class UI {
    const showApparentSize: bool
    /** The paths to ignore; None is the nil map of a UI whose ignore paths were never set. */
    var ignoreDirPaths: Option<set<string>>
    var topDir: Option<FileRef>
    var topDirPath: string
    var currentDir: Option<FileRef>
    var currentDirPath: string

    /** CreateWebUI: keeps showApparentSize, sets no directory and ignores nothing. */
    constructor CreateWebUI(showApparentSize: bool)
      ensures this.showApparentSize == showApparentSize
      ensures ignoreDirPaths == None
      ensures topDir == None && topDirPath == "" && currentDir == None && currentDirPath == ""
      ensures forall p :: !ShouldDirBeIgnored(p)
    {
      this.showApparentSize := showApparentSize;
      ignoreDirPaths := None;
      topDir := None;
      topDirPath := "";
      currentDir := None;
      currentDirPath := "";
    }

    /** ListDevices is a stub: the web UI lists nothing and never fails. */
    method ListDevices(getter: Common.DevicesInfoGetter) returns (err: Option<Error>)
      ensures err == None
    {
      return None;
    }

    /**
     * Replaces the ignore set by the paths of the list: afterwards exactly the
     * listed paths are ignored, and the new set depends on the list alone, so
     * nothing ignored before survives unless it is listed again.
     */
    method SetIgnoreDirPaths(paths: seq<string>)
      modifies this`ignoreDirPaths
      ensures ignoreDirPaths == Some(PathSet(paths))
      ensures forall p :: ShouldDirBeIgnored(p) <==> p in paths
      ensures |ignoreDirPaths.value| <= |paths|
    {
      ignoreDirPaths := Some({});
      for i := 0 to |paths|
        invariant ignoreDirPaths == Some(PathSet(paths[..i]))
      {
        PathSetExtend(paths, i);
        ignoreDirPaths := Some(ignoreDirPaths.value + {paths[i]});
      }
      assert paths[..|paths|] == paths;
      forall p ensures ShouldDirBeIgnored(p) <==> p in paths {
        assert ShouldDirBeIgnored(p) <==> p in PathSet(paths);
      }
    }

    /** Whether the analyzer must skip `path`: exact membership, never a prefix or ancestor match. */
    function ShouldDirBeIgnored(path: string): (ignored: bool)
      reads this
      ensures ignoreDirPaths == None ==> !ignored
      ensures ignoreDirPaths.Some? ==> (ignored <==> path in ignoreDirPaths.value)
    {
      match ignoreDirPaths
      case None => false
      case Some(paths) => path in paths
    }
  }
}

/** The file system the pipelines write to: files by path, holding a YAML or JSON document, and
    the directories that exist. */
module Store {
  import opened Values

  /** The directories `os.makedirs(path)` and `mkdir(parents=True)` leave in place: the path
      itself and every ancestor it names. */
  function DirChain(path: string): (r: set<string>)
    ensures path in r
  {
    {path} + Ancestors(path, |path|)
  }

  /** The prefixes `path[..i]`, `0 < i < n`, that end right before a "/". */
  function Ancestors(path: string, n: nat): set<string>
    requires n <= |path|
  {
    if n == 0 then {}
    else Ancestors(path, n - 1) + (if 0 < n - 1 && path[n - 1] == '/' then {path[..n - 1]} else {})
  }

  /** The ancestors in the first `n` characters are the prefixes that end before a "/" there. */
  lemma {:induction false} AncestorsOf(path: string, n: nat, d: string)
    requires n <= |path|
    ensures d in Ancestors(path, n) <==> 0 < |d| < n && path[..|d|] == d && path[|d|] == '/'
  {
    if n > 0 {
      AncestorsOf(path, n - 1, d);
    }
  }

  /** A path's chain of directories is the path and its prefixes that end right before a "/". */
  lemma DirChainAncestors(path: string, d: string)
    ensures d in DirChain(path) <==> d == path || (0 < |d| < |path| && path[..|d|] == d && path[|d|] == '/')
  {
    AncestorsOf(path, |path|, d);
  }

  class FileStore {
    var files: map<string, Document>
    var dirs: set<string>

    constructor (files0: map<string, Document>, dirs0: set<string>)
      ensures files == files0 && dirs == dirs0
    {
      files := files0;
      dirs := dirs0;
    }

    /** `os.makedirs(path, exist_ok=True)` and `Path(path).mkdir(parents=True, exist_ok=True)`:
        the directory and every missing ancestor are created. */
    method MakeDirs(path: string)
      modifies this
      ensures dirs == old(dirs) + DirChain(path) && files == old(files)
    {
      dirs := dirs + DirChain(path);
    }

    /** `Path(path).mkdir(exist_ok=True)`, for a caller that has checked the parent exists. */
    method MakeDir(path: string)
      modifies this
      ensures dirs == old(dirs) + {path} && files == old(files)
    {
      dirs := dirs + {path};
    }

    /** `open(path, 'w')` followed by a YAML or JSON dump: the file now holds the document. */
    method Write(path: string, doc: Document)
      modifies this
      ensures files == old(files)[path := doc] && dirs == old(dirs)
    {
      files := files[path := doc];
    }
  }
}

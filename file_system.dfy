/**
  The part of the operating system the data writer touches: which directories
  and files exist, what each file holds, and the `os.makedirs` calls made.
  Paths are compared as strings: a relative path and the absolute path it
  resolves to name two different entries.
*/
module Files {
  import opened Wrappers

  /** `FileExistsError`, raised by `os.makedirs` when the leaf already exists. */
  datatype OsError = FileExistsError(path: string)

  /** The parent directories of `p`: every prefix that ends just before a '/' other than the root's. */
  function Ancestors(p: string): set<string> {
    set k | 0 < k < |p| && p[k] == '/' :: p[..k]
  }

  class FileSystem {
    var dirs: set<string>
    var files: map<string, string>
    /** The paths handed to `os.makedirs`, in call order. */
    var made: seq<string>

    constructor (dirs0: set<string>, files0: map<string, string>)
      ensures dirs == dirs0 && files == files0 && made == []
    {
      dirs := dirs0;
      files := files0;
      made := [];
    }

    /** `os.path.exists`: a directory or a file. */
    predicate Exists(p: string)
      reads this
    {
      p in dirs || p in files
    }

    /**
      `os.makedirs(p)`: the parents first, from the root down, then `p`
      itself; FileExistsError, with nothing created, when `p` exists.
    */
    method MakeDirs(p: string) returns (r: Outcome<OsError>)
      modifies this
      ensures old(Exists(p)) ==> r == Fail(FileExistsError(p)) && dirs == old(dirs)
      ensures !old(Exists(p)) ==> r == Pass && dirs == old(dirs) + Ancestors(p) + {p}
      ensures made == old(made) + [p]
      ensures files == old(files)
    {
      made := made + [p];
      if Exists(p) {
        return Fail(FileExistsError(p));
      }
      var k := 1;
      while k < |p|
        invariant 1 <= k <= |p| || (|p| == 0 && k == 1)
        invariant dirs == old(dirs) + set j | 0 < j < k && j < |p| && p[j] == '/' :: p[..j]
        invariant made == old(made) + [p] && files == old(files)
      {
        if p[k] == '/' {
          dirs := dirs + {p[..k]};
        }
        k := k + 1;
      }
      assert (set j | 0 < j < k && j < |p| && p[j] == '/' :: p[..j]) == Ancestors(p);
      dirs := dirs + {p};
      return Pass;
    }

    /** `open(p, mode='w')`: the file exists and is empty. */
    method Open(p: string)
      modifies this
      ensures files == old(files)[p := ""]
      ensures dirs == old(dirs) && made == old(made)
    {
      files := files[p := ""];
    }

    /** `file.write(s)` on the file opened at `p`: `s` goes at its end. */
    method Write(p: string, s: string)
      requires p in files
      modifies this
      ensures files == old(files)[p := old(files)[p] + s]
      ensures dirs == old(dirs) && made == old(made)
    {
      files := files[p := files[p] + s];
    }
  }

  /** A path ending in '/' and a name has the path without the '/' among its parents. */
  lemma ParentIsAncestor(parent: string, name: string)
    requires |parent| > 0
    ensures parent in Ancestors(parent + "/" + name)
  {
    var p := parent + "/" + name;
    assert p[|parent|] == '/' && p[..|parent|] == parent;
  }

  /** Writing a file's text twice leaves only the second text. */
  lemma Overwrite(files: map<string, string>, p: string, first: string, second: string)
    ensures files[p := first][p := second] == files[p := second]
  {
  }
}

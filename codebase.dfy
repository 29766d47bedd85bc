/** The versioned codebase store (pythoneer/codebase.py): a map from relative
    path to a tracked file whose list of versions only ever grows. */
module CodebaseStore {
  import opened Common
  import opened Strings
  import opened Dicts
  import PathNames

  /** One source file of the codebase: its path relative to the codebase
      root and every version of its contents, oldest first. */
  datatype SourceFile = SourceFile(relativeFilePath: string, versions: seq<string>) {
    /** The file name: the last component of the path once trailing
        separators and "." components are dropped. The path never changes, so
        this is the name computed when the file was created. */
    function FileName(): (name: string)
      ensures PathNames.IsLastComponent(name, PathNames.Trimmed(relativeFilePath))
    {
      PathNames.NameIsLastComponent(relativeFilePath);
      PathNames.Name(relativeFilePath)
    }

    /** The current contents: the latest version. */
    function Contents(): (c: string)
      requires |versions| >= 1
      ensures c in versions
    {
      versions[|versions| - 1]
    }

    /** The file with one more version; path, name and earlier versions are kept. */
    function UpdateContents(contents: string): (f: SourceFile)
      ensures f.relativeFilePath == relativeFilePath && f.FileName() == FileName()
      ensures |f.versions| == |versions| + 1 && f.versions[..|versions|] == versions
      ensures f.Contents() == contents
    {
      SourceFile(relativeFilePath, versions + [contents])
    }
  }

  /** A new tracked file with exactly one version. The source reads that
      version from disk; here it is given. */
  function NewSourceFile(relativeFilePath: string, initialContents: string): SourceFile {
    SourceFile(relativeFilePath, [initialContents])
  }

  function Bullets(paths: seq<string>): (lines: seq<string>)
    ensures |lines| == |paths|
    ensures forall i :: 0 <= i < |paths| ==> lines[i] == "* " + paths[i]
  {
    if paths == [] then [] else ["* " + paths[0]] + Bullets(paths[1..])
  }

  /** The file list shown to the model: one "* path" line per path. */
  function FormatPaths(paths: seq<string>): (r: string)
    ensures r == "" <==> paths == []
  {
    Join("\n", Bullets(paths))
  }

  /** When no path holds a newline, the lines of the file list are exactly the
      bulleted paths, in order. */
  lemma FormatPathsLines(paths: seq<string>)
    requires paths != []
    requires forall i :: 0 <= i < |paths| ==> '\n' !in paths[i]
    ensures Split(FormatPaths(paths), '\n') == Bullets(paths)
  {
    var lines := Bullets(paths);
    forall i | 0 <= i < |lines| ensures '\n' !in lines[i] {
      assert lines[i] == "* " + paths[i];
    }
    SplitJoin(lines, '\n');
  }

  /** No path occurs twice among the (path, contents) pairs. */
  predicate DistinctPaths(initial: seq<(string, string)>) {
    forall i, j | 0 <= i < j < |initial| :: initial[i].0 != initial[j].0
  }

  /** A tracked file as the store keeps it under `path`. */
  predicate WellFormedEntry(path: string, f: SourceFile) {
    f.relativeFilePath == path && |f.versions| >= 1
  }

  class Codebase {
    /** path -> tracked file */
    var files: map<string, SourceFile>
    /** the paths of `files` in the order they were first added */
    var order: seq<string>

    ghost predicate Valid()
      reads this
    {
      && NoDuplicates(order)
      && (forall i | 0 <= i < |order| :: order[i] in files)
      && (forall p {:trigger files[p]} | p in files :: p in order && WellFormedEntry(p, files[p]))
    }

    /** Builds the store from the files found under the codebase root, given
        here as (relative path, contents) pairs; a directory listing names
        each path once. */
    constructor (initial: seq<(string, string)>)
      requires DistinctPaths(initial)
      ensures Valid()
      ensures |order| == |initial| && forall i :: 0 <= i < |initial| ==> order[i] == initial[i].0
      ensures forall i :: 0 <= i < |initial| ==> files[initial[i].0] == NewSourceFile(initial[i].0, initial[i].1)
    {
      // Each pair is added as `add_file` adds it: a new path goes to the end.
      var fs: map<string, SourceFile> := map[];
      var ord: seq<string> := [];
      var i := 0;
      while i < |initial|
        invariant 0 <= i <= |initial|
        invariant |ord| == i && forall k :: 0 <= k < i ==> ord[k] == initial[k].0
        invariant NoDuplicates(ord)
        invariant forall p {:trigger fs[p]} | p in fs :: p in ord && WellFormedEntry(p, fs[p])
        invariant forall k :: 0 <= k < i ==> initial[k].0 in fs && fs[initial[k].0] == NewSourceFile(initial[k].0, initial[k].1)
      {
        fs := fs[initial[i].0 := NewSourceFile(initial[i].0, initial[i].1)];
        ord := ord + [initial[i].0];
        i := i + 1;
      }
      files := fs;
      order := ord;
    }

    /** Inserts, or replaces, the entry for `path` with a file that has exactly
        one version. A new path goes to the end of the order. */
    method AddFile(path: string, contents: string)
      requires Valid()
      modifies this
      ensures Valid()
      ensures files == old(files)[path := NewSourceFile(path, contents)]
      ensures order == if path in old(files) then old(order) else old(order) + [path]
    {
      if path !in files {
        order := order + [path];
      }
      files := files[path := NewSourceFile(path, contents)];
    }

    /** The tracked file at `path`; a missing path is a key miss. */
    function RetrieveFile(path: string): (r: Result<SourceFile>)
      reads this
      ensures r.Success? <==> path in files
      ensures r.Success? ==> r.value == files[path]
      ensures r.Failure? ==> r.error == KeyError(Str(path))
    {
      if path in files then Success(files[path]) else Failure(KeyError(Str(path)))
    }

    /** Appends one version to the file at `path`: every earlier version of
        it, and every other file, is left as it was. A missing path is a key miss. */
    method EditFile(path: string, contents: string) returns (r: Result<()>)
      requires Valid()
      modifies this
      ensures Valid()
      ensures r == if path in old(files) then Success(()) else Failure(KeyError(Str(path)))
      ensures files == if path in old(files) then old(files)[path := old(files[path]).UpdateContents(contents)] else old(files)
      ensures order == old(order)
      ensures files.Keys == old(files.Keys)
      ensures path in old(files) ==> files[path].versions == old(files[path].versions) + [contents]
      ensures forall p | p in old(files) && p != path :: files[p] == old(files[p])
    {
      if path !in files {
        return Failure(KeyError(Str(path)));
      }
      files := files[path := files[path].UpdateContents(contents)];
      r := Success(());
    }

    /** The relative paths of all files, each once, in insertion order. */
    function RelativeFilePaths(): (paths: seq<string>)
      reads this
      requires Valid()
      ensures NoDuplicates(paths)
      ensures forall p :: p in paths <==> p in files
    {
      order
    }

    /** The file list shown to the model, one bulleted path per line. */
    function FormattedRelativeFilePaths(): (r: string)
      reads this
      ensures r == FormatPaths(order)
      ensures r == "" <==> order == []
    {
      FormatPaths(order)
    }
  }
}

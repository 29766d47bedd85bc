/** The two `pathlib.PurePath` properties the modelled code reads. */
module PathNames {
  import opened Strings

  /** A path that does not end in a separator or in a "." component. */
  predicate EndsInComponent(path: string) {
    path == "" || (path[|path| - 1] != '/' && path != "." && !EndsWith(path, "/."))
  }

  /** The path without the trailing separators and "." components that
      pathlib drops when it parses a path. */
  function Trimmed(path: string): (t: string)
    ensures |t| <= |path| && t == path[..|t|]
    decreases |path|
  {
    if path != "" && path[|path| - 1] == '/' then
      var t := Trimmed(path[..|path| - 1]);
      assert path[..|path| - 1][..|t|] == path[..|t|];
      t
    else if path == "." then ""
    else if EndsWith(path, "/.") then
      var t := Trimmed(path[..|path| - 2]);
      assert path[..|path| - 2][..|t|] == path[..|t|];
      t
    else path
  }

  /** The trimmed path ends in a component, and only separators and dots
      were dropped. */
  lemma {:induction false} TrimmedDropsOnlySeparators(path: string)
    ensures EndsInComponent(Trimmed(path))
    ensures forall i | |Trimmed(path)| <= i < |path| :: path[i] == '/' || path[i] == '.'
    decreases |path|
  {
    if path != "" && path[|path| - 1] == '/' {
      TrimmedDropsOnlySeparators(path[..|path| - 1]);
    } else if path == "." {
    } else if EndsWith(path, "/.") {
      TrimmedDropsOnlySeparators(path[..|path| - 2]);
      assert path[|path| - 2..] == "/.";
      assert path[|path| - 2] == '/' && path[|path| - 1] == '.';
    }
  }

  /** `Path(path).name`: the final component of the trimmed path. */
  function Name(path: string): string {
    var t := Trimmed(path);
    t[RFind(t, '/') + 1..]
  }

  /** A trailing separator or "." component does not change the name. */
  lemma NameIgnoresTrailingSeparator(path: string)
    ensures Name(path + "/") == Name(path)
    ensures Name(path + "/.") == Name(path)
  {
    TrimmedIgnoresSeparator(path);
    TrimmedIgnoresDot(path);
  }

  lemma TrimmedIgnoresSeparator(path: string)
    ensures Trimmed(path + "/") == Trimmed(path)
  {
    var q := path + "/";
    assert q[|q| - 1] == '/';
    assert q[..|q| - 1] == path;
  }

  lemma TrimmedIgnoresDot(path: string)
    ensures Trimmed(path + "/.") == Trimmed(path)
  {
    var q := path + "/.";
    assert q[|q| - 1] == '.' && q != ".";
    assert q[|q| - 2..] == "/.";
    assert q[..|q| - 2] == path;
  }

  /** `name` is the last component of `path`: a suffix of it without '/',
      which is either the whole path or preceded by a '/'. */
  predicate IsLastComponent(name: string, path: string) {
    && '/' !in name
    && EndsWith(path, name)
    && (|name| == |path| || path[|path| - |name| - 1] == '/')
  }

  /** A last component starts right after the last '/'. */
  lemma LastComponentLength(name: string, path: string)
    requires IsLastComponent(name, path)
    ensures |name| == |path| - 1 - RFind(path, '/')
  {
    var n := |path| - |name|;
    assert path[n..] == name;
    if n == 0 {
      assert path == name;
    } else {
      RFindUnique(path, '/', n - 1);
    }
  }

  /** `Name` gives the last component of the trimmed path, and it is the only
      string that is one. */
  lemma NameIsLastComponent(path: string)
    ensures EndsInComponent(Trimmed(path))
    ensures IsLastComponent(Name(path), Trimmed(path))
    ensures forall other :: IsLastComponent(other, Trimmed(path)) ==> other == Name(path)
  {
    TrimmedEndsInComponent(path);
    var t := Trimmed(path);
    AfterLastSeparator(t);
    forall other | IsLastComponent(other, t) ensures other == Name(path) {
      OnlyLastComponent(other, t);
    }
  }

  lemma TrimmedEndsInComponent(path: string)
    ensures EndsInComponent(Trimmed(path))
  {
    TrimmedDropsOnlySeparators(path);
  }

  /** What follows the last '/' of a path is a last component of it. */
  lemma AfterLastSeparator(t: string)
    ensures IsLastComponent(t[RFind(t, '/') + 1..], t)
  {
    var i := RFind(t, '/');
    var name := t[i + 1..];
    assert |t| - |name| == i + 1;
    if i < 0 {
      assert name == t;
    } else {
      assert '/' !in name && t[|t| - |name| - 1] == '/';
    }
    assert t[|t| - |name|..] == name;
  }

  /** A last component is what follows the last '/'. */
  lemma OnlyLastComponent(other: string, t: string)
    requires IsLastComponent(other, t)
    ensures other == t[RFind(t, '/') + 1..]
  {
    LastComponentLength(other, t);
    assert t[|t| - |other|..] == other;
  }

  /** `Path(path).suffix`: from the last '.' of the name, when that dot is
      neither the first nor the last character of the name; otherwise "". */
  function Suffix(path: string): (suffix: string)
    ensures suffix == [] || (suffix[0] == '.' && |suffix| >= 2 && '.' !in suffix[1..])
    ensures EndsWith(Name(path), suffix)
  {
    var name := Name(path);
    var i := RFind(name, '.');
    if 0 < i < |name| - 1 then
      assert name[i..][1..] == name[i + 1..];
      assert name[|name| - |name[i..]|..] == name[i..];
      name[i..]
    else ""
  }
}

/** Text helpers of the tools (pythoneer/tools/utils.py). */
module ToolUtils {
  import opened Common
  import opened Strings
  import PathNames

  /** File extension -> Markdown code block identifier. */
  const ExtensionToMarkdownIdentifier: map<string, string> := map[
    "py" := "python",
    "java" := "java",
    "ts" := "typescript",
    "js" := "javascript",
    "html" := "html",
    "json" := "json",
    "txt" := "plaintext"
  ]

  /** `Path(path).suffix.lstrip(".")`: the extension without its dot. */
  function Extension(path: string): (ext: string)
    ensures '.' !in ext
  {
    var suffix := PathNames.Suffix(path);
    if suffix == "" then "" else suffix[1..]
  }

  /** The Markdown identifier for a file: the mapped name of a known
      extension, the extension itself otherwise. */
  function RetrieveFileIdentifier(path: string): string {
    var ext := Extension(path);
    if ext in ExtensionToMarkdownIdentifier then ExtensionToMarkdownIdentifier[ext] else ext
  }

  /** The name of `dir + name`, for a directory part that is empty or ends in
      '/' and a name that is a component of its own. */
  lemma NameAfterDirectory(dir: string, name: string)
    requires dir == "" || dir[|dir| - 1] == '/'
    requires '/' !in name && name != "" && name != "."
    ensures PathNames.Name(dir + name) == name
  {
    var path := dir + name;
    assert path[|path| - 1] == name[|name| - 1];
    assert |path| >= 2 ==> path[|path| - 2..] == [path[|path| - 2], path[|path| - 1]];
    assert PathNames.EndsInComponent(path);
    assert path[|dir|..] == name;
    if dir == "" {
      assert path == name;
    } else {
      RFindUnique(path, '/', |dir| - 1);
    }
  }

  /** The suffix of a path whose name is `stem + "." + ext`. */
  lemma SuffixOfName(path: string, stem: string, ext: string)
    requires PathNames.Name(path) == stem + "." + ext
    requires stem != "" && ext != "" && '.' !in ext
    ensures PathNames.Suffix(path) == "." + ext
  {
    var name := PathNames.Name(path);
    assert name[|stem|] == '.';
    assert name[|stem| + 1..] == ext;
    RFindUnique(name, '.', |stem|);
    assert 0 < |stem| < |name| - 1;
    assert name[|stem|..] == "." + ext;
  }

  /** A file `stem.ext` in any directory is identified by what its extension maps to,
      or by the extension itself when it is not one of the known seven. */
  lemma IdentifierOfExtension(dir: string, stem: string, ext: string)
    requires dir == "" || dir[|dir| - 1] == '/'
    requires stem != "" && ext != ""
    requires '/' !in stem && '/' !in ext && '.' !in ext
    ensures RetrieveFileIdentifier(dir + stem + "." + ext) ==
            if ext in ExtensionToMarkdownIdentifier then ExtensionToMarkdownIdentifier[ext] else ext
  {
    var name := stem + "." + ext;
    var path := dir + stem + "." + ext;
    assert path == dir + name;
    NameAfterDirectory(dir, name);
    SuffixOfName(path, stem, ext);
    assert ("." + ext)[1..] == ext;
    assert Extension(path) == ext;
  }

  /** A trailing separator or "." component does not change a file's identifier. */
  lemma IdentifierIgnoresTrailingSeparator(path: string)
    ensures RetrieveFileIdentifier(path + "/") == RetrieveFileIdentifier(path)
    ensures RetrieveFileIdentifier(path + "/.") == RetrieveFileIdentifier(path)
  {
    PathNames.NameIgnoresTrailingSeparator(path);
    IdentifierOfSameName(path + "/", path);
    IdentifierOfSameName(path + "/.", path);
  }

  /** The identifier depends on the path only through its name. */
  lemma IdentifierOfSameName(p: string, q: string)
    requires PathNames.Name(p) == PathNames.Name(q)
    ensures RetrieveFileIdentifier(p) == RetrieveFileIdentifier(q)
  {
    assert PathNames.Suffix(p) == PathNames.Suffix(q);
  }

  /** The dot `RFind` reports in a name with no dot, a hidden name with only
      its leading dot, or a name ending in a dot is not strictly inside it. */
  lemma NoInnerDot(name: string)
    requires || '.' !in name
             || (name != "" && name[0] == '.' && '.' !in name[1..])
             || (name != "" && name[|name| - 1] == '.')
    ensures !(0 < RFind(name, '.') < |name| - 1)
  {
    if '.' in name {
      if name[0] == '.' && '.' !in name[1..] {
        RFindUnique(name, '.', 0);
      } else {
        RFindUnique(name, '.', |name| - 1);
      }
    }
  }

  /** A name whose last dot is not strictly inside it gives no suffix. */
  lemma NoSuffix(path: string)
    requires var name := PathNames.Name(path); !(0 < RFind(name, '.') < |name| - 1)
    ensures PathNames.Suffix(path) == ""
  {
  }

  /** A directory entry whose name has no dot strictly inside it has no suffix. */
  lemma SuffixOfDirectoryEntry(dir: string, name: string)
    requires dir == "" || dir[|dir| - 1] == '/'
    requires '/' !in name && name != "" && name != "."
    requires !(0 < RFind(name, '.') < |name| - 1)
    ensures PathNames.Suffix(dir + name) == ""
  {
    NameAfterDirectory(dir, name);
    NoSuffix(dir + name);
  }

  /** A path without a suffix has the empty identifier. */
  lemma IdentifierOfNoSuffix(path: string)
    requires PathNames.Suffix(path) == ""
    ensures RetrieveFileIdentifier(path) == ""
  {
    assert Extension(path) == "";
    assert "" !in ExtensionToMarkdownIdentifier;
  }

  /** A name with no dot, a hidden name with only its leading dot, or a name
      ending in a dot has no suffix, and so the identifier "". */
  lemma IdentifierWithoutSuffix(dir: string, name: string)
    requires dir == "" || dir[|dir| - 1] == '/'
    requires '/' !in name && name != "" && name != "."
    requires || '.' !in name
             || (name != "" && name[0] == '.' && '.' !in name[1..])
             || (name != "" && name[|name| - 1] == '.')
    ensures RetrieveFileIdentifier(dir + name) == ""
  {
    NoInnerDot(name);
    SuffixOfDirectoryEntry(dir, name);
    IdentifierOfNoSuffix(dir + name);
  }

  /** Removes a Markdown code fence: everything up to and including the first
      newline when the text starts with three backticks, then three trailing
      backticks, then leading whitespace. */
  function RemoveCodeBlockTags(code: string): (r: string)
    ensures |r| <= |code|
    ensures r == [] || !IsWhitespace(r[0])
    ensures exists i, j :: 0 <= i <= j <= |code| && r == code[i..j]
  {
    var start := if StartsWith(code, "```") then Find(code, '\n') + 1 else 0;
    var afterOpen := code[start..];
    var end := if EndsWith(afterOpen, "```") then |code| - 3 else |code|;
    assert afterOpen[..end - start] == code[start..end];
    var afterClose := code[start..end];
    var r := LStrip(afterClose);
    assert r == code[end - |r|..end];
    r
  }

  /** "```" + lang + "\n" + body + "```" becomes `body` without its leading whitespace. */
  lemma {:induction false} RemoveCodeBlockTagsOfFence(lang: string, body: string)
    requires '\n' !in lang
    ensures RemoveCodeBlockTags("```" + lang + "\n" + body + "```") == LStrip(body)
  {
    var code := "```" + lang + "\n" + body + "```";
    assert StartsWith(code, "```");
    assert code[..3 + |lang|] == "```" + lang;
    FindUnique(code, '\n', 3 + |lang|);
    var afterOpen := code[4 + |lang|..];
    assert afterOpen == body + "```";
    assert EndsWith(afterOpen, "```");
    assert afterOpen[..|afterOpen| - 3] == body;
  }

  /** Without an opening and a closing fence only leading whitespace goes. */
  lemma RemoveCodeBlockTagsWithoutFence(code: string)
    requires !StartsWith(code, "```") && !EndsWith(code, "```")
    ensures RemoveCodeBlockTags(code) == LStrip(code)
  {
    assert code[0..|code|] == code;
  }

  /** An opening fence without any newline is kept: `find` returns -1, so the
      slice starts at 0. */
  lemma RemoveCodeBlockTagsNoNewline(code: string)
    requires StartsWith(code, "```") && '\n' !in code
    ensures RemoveCodeBlockTags(code) ==
            LStrip(if EndsWith(code, "```") then code[..|code| - 3] else code)
  {
    assert code[0..] == code;
    assert code[0..|code|] == code;
  }

  /** One Ruff diagnostic, as parsed from its JSON output. Ruff reports no code
      (JSON null) for syntax errors. */
  datatype Violation = Violation(row: int, column: int, code: Option<string>, message: string)

  /** "row:column - code: message" */
  function FormatViolation(v: Violation): string {
    var code := match v.code case Some(c) => c case None => "None";
    IntToString(v.row) + ":" + IntToString(v.column) + " - " + code + ": " + v.message
  }

  /** The formatting step of `lint_code`: `None` stands for an empty Ruff
      stdout, otherwise the diagnostics it printed. */
  function FormatViolations(output: Option<seq<Violation>>): (r: Option<seq<string>>)
    ensures r.None? <==> output.None?
    ensures output.Some? ==> |r.value| == |output.value|
    ensures output.Some? ==> forall i :: 0 <= i < |output.value| ==> r.value[i] == FormatViolation(output.value[i])
  {
    match output
    case None => None
    case Some(vs) => Some(seq(|vs|, i requires 0 <= i < |vs| => FormatViolation(vs[i])))
  }

  /** The row of a diagnostic can be read back from its formatted text: it is
      the digits before the first ':'. */
  lemma ViolationRowReadable(v: Violation)
    requires v.row >= 0
    ensures var s := FormatViolation(v);
            var k := Find(s, ':');
            && k == |NatToString(v.row)|
            && (forall i :: 0 <= i < k ==> '0' <= s[i] <= '9')
            && ParseNat(s[..k]) == v.row
  {
    var digits := NatToString(v.row);
    var s := FormatViolation(v);
    assert s[..|digits|] == digits;
    assert s[|digits|] == ':';
    FindUnique(s, ':', |digits|);
    ParseNatToString(v.row);
  }
}

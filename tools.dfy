/** The six tools the agent can use (pythoneer/tools/tools.py): their class
    attributes, their value checks, what `_use` does to the agent and the
    observation it reports. */
module Tools {
  import opened Common
  import opened Strings
  import opened Dicts
  import opened ToolBase
  import opened Observations
  import ToolUtils
  import CodebaseStore
  import Agents

  // ----- class attributes -----

  const OpenFileParameters: seq<Parameter> := [
    Parameter("file_path", "string", "The full path to the file to open. e.g., 'data/processing.py'")
  ]

  const OpenFileClass: ToolClass := ToolClass(
    "OpenFileTool", Some(OpenFile), Some("open_file"),
    Some("Open a file in the file editor. The path must be the full path to an existing "
         + "file in the codebase that you are working on. The file will be opened in the "
         + "file editor, so that you can see its contents (and possibly decide to edit it "
         + "at a later step)."),
    Some(OpenFileParameters))

  const EditFileParameters: seq<Parameter> := [
    Parameter("commit_message", "string",
              "The commit message is a short description of the changes you made to the file. "
              + "This should be detailed enough to allow other develoeprs to understand the changes "
              + "you made (without having to read the entire diff), but succinct enough to fit in a "
              + "a couple of sentences."),
    Parameter("new_file_contents", "string",
              "The new contents of the file. This should be the full, updated contents of the file. "
              + "This will be used to update the file in the codebase (the contents of the file "
              + "open in the file editor will be replaced with this new content).")
  ]

  const EditFileClass: ToolClass := ToolClass(
    "EditFileTool", Some(EditFile), Some("edit_file"),
    Some("Edit the contents of the file open in your file editor. Important: this tool should be "
         + "used after you have opened the file you want to edit using the 'open_file' tool."),
    Some(EditFileParameters))

  const CreateFileParameters: seq<Parameter> := [
    Parameter("file_path", "string",
              "The full path to the new file to create, e.g., 'data/new_file.py'. "
              + "If the directory does not exist, it will be created."),
    Parameter("file_contents", "string", "The full contents of the new file.")
  ]

  const CreateFileClass: ToolClass := ToolClass(
    "CreateFileTool", Some(CreateFile), Some("create_file"),
    Some("Create a new file in the codebase. The path must be the full path to the new file you want to create. "
         + "You must provide also the full contents of the new file."),
    Some(CreateFileParameters))

  const EnvironmentValues: seq<string> := ["python2", "python3"]

  const RunPythonScriptParameters: seq<Parameter> := [
    Parameter("script_path", "string",
              "The full path to the Python script to run. e.g., 'data/processing.py'"),
    Parameter("script_arguments", "string",
              "The arguments to pass to the Python script when running it, if any. "
              + "These should be formatted as a string, e.g., '--arg1 value1 --arg2 value2'. "
              + "The arguments should be formatted as they would be passed on the command line."
              + "This field is not required if the script does not take any arguments, or if "
              + "no arguments are to be passed.",
              required := false),
    Parameter("environment", "string",
              "The name of the environment to run the script in, either 'python2' or 'python3'."
              + "The 'python2' environment should be used when running Python 2 scripts, and the "
              + "'python3' environment should be used when running Python 3 scripts.",
              enumValues := Some(EnvironmentValues))
  ]

  const RunPythonScriptClass: ToolClass := ToolClass(
    "RunPythonScriptTool", Some(RunPythonScript), Some("run_python_script"),
    Some("Run a Python script."), Some(RunPythonScriptParameters))

  const RunAllTestsParameters: seq<Parameter> := [
    Parameter("environment", "string",
              "The name of the environment to run the tests in, either 'python2' or 'python3'."
              + "The 'python2' environment should be used when working with a codebase "
              + "that uses Python 2, and the 'python3' environment should be used when working "
              + "with a codebase that uses Python 3.",
              enumValues := Some(EnvironmentValues))
  ]

  const RunAllTestsClass: ToolClass := ToolClass(
    "RunAllTestsTool", Some(RunAllTests), Some("run_all_tests"),
    Some("Run all tests in the codebase."), Some(RunAllTestsParameters))

  const CompleteTaskClass: ToolClass := ToolClass(
    "CompleteTaskTool", Some(CompleteTask), Some("complete_task"),
    Some("Declare the task you are working on as complete."), Some([]))

  /** The class of each concrete tool. */
  function ClassOf(kind: ToolKind): (cls: ToolClass)
    ensures cls.kind == Some(kind) && cls.name.Some? && cls.description.Some? && cls.parameters.Some?
  {
    match kind
    case OpenFile => OpenFileClass
    case EditFile => EditFileClass
    case CreateFile => CreateFileClass
    case RunPythonScript => RunPythonScriptClass
    case RunAllTests => RunAllTestsClass
    case CompleteTask => CompleteTaskClass
  }

  /** The `NAME` of each concrete tool. */
  function ToolName(kind: ToolKind): string {
    match kind
    case OpenFile => "open_file"
    case EditFile => "edit_file"
    case CreateFile => "create_file"
    case RunPythonScript => "run_python_script"
    case RunAllTests => "run_all_tests"
    case CompleteTask => "complete_task"
  }

  /** Each class is named by its tool's name, and no two tools share a name. */
  lemma ClassOfIsNamed(kind: ToolKind)
    ensures ClassOf(kind).name == Some(ToolName(kind))
    ensures forall other: ToolKind :: ToolName(other) == ToolName(kind) ==> other == kind
  {
  }

  /** The parameters each concrete tool declares. */
  function ParametersOf(kind: ToolKind): seq<Parameter> {
    match kind
    case OpenFile => OpenFileParameters
    case EditFile => EditFileParameters
    case CreateFile => CreateFileParameters
    case RunPythonScript => RunPythonScriptParameters
    case RunAllTests => RunAllTestsParameters
    case CompleteTask => []
  }

  lemma ClassOfDeclaresParameters(kind: ToolKind)
    ensures ClassOf(kind).parameters == Some(ParametersOf(kind))
  {
  }

  /** `p` is a required parameter of type "string" called `name`. */
  predicate RequiredString(p: Parameter, name: string) {
    p.name == name && p.required && p.paramType == "string"
  }

  /** The names, types and requiredness that each tool's `_use` relies on. */
  predicate Shaped(kind: ToolKind, ps: seq<Parameter>) {
    match kind
    case OpenFile => |ps| == 1 && RequiredString(ps[0], "file_path")
    case EditFile => |ps| == 2 && RequiredString(ps[0], "commit_message") && RequiredString(ps[1], "new_file_contents")
    case CreateFile => |ps| == 2 && RequiredString(ps[0], "file_path") && RequiredString(ps[1], "file_contents")
    case RunPythonScript =>
      && |ps| == 3 && RequiredString(ps[0], "script_path") && RequiredString(ps[2], "environment")
      && ps[1].name == "script_arguments" && !ps[1].required
    case RunAllTests => |ps| == 1 && RequiredString(ps[0], "environment")
    case CompleteTask => ps == []
  }

  /** Every tool declares the parameters its `_use` relies on. */
  lemma DeclaredParametersShaped(kind: ToolKind)
    ensures Shaped(kind, ParametersOf(kind))
  {
  }

  /** The Docker image of each environment the run tools accept. */
  const EnvironmentToImage: map<string, string> := map[
    "python2" := "python2-base:latest",
    "python3" := "python3-base:latest"
  ]

  // ----- value checks (`_validate_argument_values`) -----

  /** `v in codebase.get_relative_file_paths()`: only a string equals a path. */
  predicate IsCodebasePath(v: Value, cb: CodebaseStore.Codebase)
    reads cb
    requires cb.Valid()
  {
    v.Str? && v.s in cb.RelativeFilePaths()
  }

  function NotInCodebaseMessage(v: Value, fileList: string): string {
    "The file '" + Text(v) + "' does not exist in the codebase. The files in the codebase are:\n" + fileList
  }

  function AlreadyInCodebaseMessage(v: Value, fileList: string): string {
    "The file '" + Text(v) + "' already exists in the codebase. The files in the codebase are:\n" + fileList
  }

  /** The run-script variant: no space after the first sentence and no newline. */
  function ScriptNotInCodebaseMessage(v: Value, fileList: string): string {
    "The file '" + Text(v) + "' does not exist in the codebase.The files in the codebase are: " + fileList
  }

  /** `environments` rendered by an f-string: `dict_keys([...])` of the map's keys, in order. */
  const EnvironmentsText: string := "dict_keys(['python2', 'python3'])"

  function InvalidEnvironmentMessage(v: Value): string {
    "The environment '" + Text(v) + "' is not valid. Valid environments are: " + EnvironmentsText
  }

  /** `environment not in ENVIRONMENT_TO_IMAGE.keys()`: the test hashes the
      value, so an unhashable one raises a TypeError. */
  function EnvironmentCheck(v: Value): (r: Result<()>)
    ensures r.Success? <==> v.Str? && v.s in EnvironmentToImage
    ensures v.Other? && !v.hashable ==> r == Failure(TypeError("unhashable type: '" + v.typeName + "'"))
    ensures !(v.Other? && !v.hashable) && r.Failure? ==> r == Failure(ValueError(InvalidEnvironmentMessage(v)))
  {
    if v.Other? && !v.hashable then Failure(TypeError("unhashable type: '" + v.typeName + "'"))
    else if v.Str? && v.s in EnvironmentToImage then Success(())
    else Failure(ValueError(InvalidEnvironmentMessage(v)))
  }

  /** `self.arguments[name]` */
  function Argument(arguments: Arguments, name: string): (r: Result<Value>)
    ensures r.Success? <==> name in arguments.entries
    ensures r.Success? ==> r.value == arguments.entries[name]
    ensures r.Failure? ==> r.error == KeyError(Str(name))
  {
    if name in arguments.entries then Success(arguments.entries[name]) else Failure(KeyError(Str(name)))
  }

  /** open_file: the path must be a file of the codebase. */
  function OpenFileValueCheck(arguments: Arguments, cb: CodebaseStore.Codebase): (r: Result<()>)
    reads cb
    requires cb.Valid()
    ensures "file_path" in arguments.entries ==>
              if IsCodebasePath(arguments.entries["file_path"], cb) then r == Success(())
              else r == Failure(ValueError(NotInCodebaseMessage(arguments.entries["file_path"], cb.FormattedRelativeFilePaths())))
  {
    var v :- Argument(arguments, "file_path");
    if !IsCodebasePath(v, cb) then Failure(ValueError(NotInCodebaseMessage(v, cb.FormattedRelativeFilePaths())))
    else Success(())
  }

  /** create_file: the path must not be a file of the codebase yet. */
  function CreateFileValueCheck(arguments: Arguments, cb: CodebaseStore.Codebase): (r: Result<()>)
    reads cb
    requires cb.Valid()
    ensures "file_path" in arguments.entries ==>
              if IsCodebasePath(arguments.entries["file_path"], cb)
              then r == Failure(ValueError(AlreadyInCodebaseMessage(arguments.entries["file_path"], cb.FormattedRelativeFilePaths())))
              else r == Success(())
  {
    var v :- Argument(arguments, "file_path");
    if IsCodebasePath(v, cb) then Failure(ValueError(AlreadyInCodebaseMessage(v, cb.FormattedRelativeFilePaths())))
    else Success(())
  }

  /** run_python_script: the script must be a file of the codebase, then the
      environment must be a known one. */
  function RunPythonScriptValueCheck(arguments: Arguments, cb: CodebaseStore.Codebase): (r: Result<()>)
    reads cb
    requires cb.Valid()
    ensures "script_path" in arguments.entries && "environment" in arguments.entries ==>
              if !IsCodebasePath(arguments.entries["script_path"], cb)
              then r == Failure(ValueError(ScriptNotInCodebaseMessage(arguments.entries["script_path"], cb.FormattedRelativeFilePaths())))
              else r == EnvironmentCheck(arguments.entries["environment"])
  {
    var path :- Argument(arguments, "script_path");
    if !IsCodebasePath(path, cb) then
      Failure(ValueError(ScriptNotInCodebaseMessage(path, cb.FormattedRelativeFilePaths())))
    else
      var environment :- Argument(arguments, "environment");
      EnvironmentCheck(environment)
  }

  /** run_all_tests: the environment must be a known one. */
  function RunAllTestsValueCheck(arguments: Arguments): (r: Result<()>)
    ensures "environment" in arguments.entries ==> r == EnvironmentCheck(arguments.entries["environment"])
  {
    var environment :- Argument(arguments, "environment");
    EnvironmentCheck(environment)
  }

  /** The value check of each tool; edit_file and complete_task check nothing. */
  function ValueCheck(tool: Tool, cb: CodebaseStore.Codebase): Result<()>
    reads cb
    requires cb.Valid()
  {
    match tool.kind
    case OpenFile => OpenFileValueCheck(tool.arguments, cb)
    case EditFile => Success(())
    case CreateFile => CreateFileValueCheck(tool.arguments, cb)
    case RunPythonScript => RunPythonScriptValueCheck(tool.arguments, cb)
    case RunAllTests => RunAllTestsValueCheck(tool.arguments)
    case CompleteTask => Success(())
  }

  /** open_file on a string path that is not in the codebase is rejected with
      the list of files. */
  lemma OpenFileRejectsUnknownPath(tool: Tool, cb: CodebaseStore.Codebase)
    requires cb.Valid() && tool.kind == OpenFile && Shaped(tool.kind, tool.parameters)
    requires "file_path" in tool.arguments.entries && !IsCodebasePath(tool.arguments.entries["file_path"], cb)
    ensures Validation(tool, ValueCheck(tool, cb)) ==
            Failure(ValueError(NotInCodebaseMessage(tool.arguments.entries["file_path"], cb.FormattedRelativeFilePaths())))
  {
    assert Present(tool.parameters[0], tool.arguments);
    assert AllPresent(tool);
  }

  /** create_file on a path that is already in the codebase is rejected with
      the list of files. */
  lemma CreateFileRejectsExistingPath(tool: Tool, cb: CodebaseStore.Codebase)
    requires cb.Valid() && tool.kind == CreateFile && Shaped(tool.kind, tool.parameters)
    requires "file_contents" in tool.arguments.entries
    requires "file_path" in tool.arguments.entries && IsCodebasePath(tool.arguments.entries["file_path"], cb)
    ensures Validation(tool, ValueCheck(tool, cb)) ==
            Failure(ValueError(AlreadyInCodebaseMessage(tool.arguments.entries["file_path"], cb.FormattedRelativeFilePaths())))
  {
    assert Present(tool.parameters[0], tool.arguments) && Present(tool.parameters[1], tool.arguments);
    assert AllPresent(tool);
    assert ValueCheck(tool, cb) == CreateFileValueCheck(tool.arguments, cb);
  }

  /** Both run tools reject an environment other than python2 and python3
      (for run_python_script, once the script is known to be in the codebase). */
  lemma RunToolsRejectUnknownEnvironment(tool: Tool, cb: CodebaseStore.Codebase)
    requires cb.Valid()
    requires || (tool.kind == RunAllTests && Shaped(tool.kind, tool.parameters))
             || (tool.kind == RunPythonScript && Shaped(tool.kind, tool.parameters) &&
                 "script_path" in tool.arguments.entries && IsCodebasePath(tool.arguments.entries["script_path"], cb))
    requires "environment" in tool.arguments.entries
    requires var v := tool.arguments.entries["environment"]; !(v.Str? && v.s in EnvironmentToImage)
    ensures Validation(tool, ValueCheck(tool, cb)) == EnvironmentCheck(tool.arguments.entries["environment"]).PropagateFailure()
  {
    if tool.kind == RunAllTests {
      assert Present(tool.parameters[0], tool.arguments);
    } else {
      assert Present(tool.parameters[0], tool.arguments) && Present(tool.parameters[1], tool.arguments)
             && Present(tool.parameters[2], tool.arguments);
    }
    assert AllPresent(tool);
  }

  // ----- what the tools report -----

  /** A fenced Markdown code block. */
  function CodeBlock(identifier: string, contents: string): string {
    "```" + identifier + "\n" + contents + "\n```"
  }

  /** What open_file reports: the file's contents in a python block, and the
      file viewer now shows them. */
  function OpenFileObservation(path: string, contents: string): (o: Observation)
    ensures o.fileViewerChanged && o.fileViewerNewContent == Some(contents)
    ensures EndsWith(o.observationDescription, CodeBlock("python", contents))
    ensures StartsWith(o.observationDescription, o.summarisedObservationDescription)
    ensures o.summarisedObservationDescription == "Opened the file '" + path + "'"
    ensures !o.terminalOutput && o.terminalContent == None && o.reviewComment == None
  {
    var summary := "Opened the file '" + path + "'";
    var rest := ". Contents of " + path + ": \n" + CodeBlock("python", contents);
    EndsWithConcat(summary + ". Contents of " + path + ": \n", CodeBlock("python", contents));
    StartsWithConcat(summary, rest);
    assert summary + rest == summary + ". Contents of " + path + ": \n" + CodeBlock("python", contents);
    Observation(summary + rest, summary, fileViewerChanged := true, fileViewerNewContent := Some(contents))
  }

  /** The text edit_file stores: a leading "```python" (nine characters) goes,
      then a trailing "```", then leading whitespace. */
  function CleanEditContents(text: string): string {
    var start := if StartsWith(text, "```python") then 9 else 0;
    var end := if EndsWith(text[start..], "```") then |text| - 3 else |text|;
    LStrip(text[start..end])
  }

  lemma CleanEditContentsIsSlice(text: string)
    ensures var r := CleanEditContents(text);
            && |r| <= |text| && (r == [] || !IsWhitespace(r[0]))
            && exists i, j :: 0 <= i <= j <= |text| && r == text[i..j]
  {
    var start := if StartsWith(text, "```python") then 9 else 0;
    var afterOpen := text[start..];
    var end := if EndsWith(afterOpen, "```") then |text| - 3 else |text|;
    assert afterOpen[..end - start] == text[start..end];
    var r := LStrip(text[start..end]);
    assert r == text[end - |r|..end];
  }

  /** A block fenced as "```python" ... "```" becomes its body without leading whitespace. */
  lemma CleanEditContentsOfFence(body: string)
    ensures CleanEditContents("```python" + body + "```") == LStrip(body)
  {
    var text := "```python" + body + "```";
    assert text[..9] == "```python";
    assert text[9..] == body + "```";
    assert (body + "```")[|body|..] == "```";
    assert (body + "```")[..|body|] == body;
  }

  /** Text without the fences only loses its leading whitespace. */
  lemma CleanEditContentsWithoutFence(text: string)
    requires !StartsWith(text, "```python") && !EndsWith(text, "```")
    ensures CleanEditContents(text) == LStrip(text)
  {
    assert text[0..] == text;
    assert text[0..|text|] == text;
  }

  /** The newline after "```python" is leading whitespace of the body. */
  lemma CleanEditOfNewlineFence(body: string)
    ensures CleanEditContents("```python\n" + body + "```") == LStrip(body)
  {
    var nb := "\n" + body;
    assert "```python\n" + body + "```" == "```python" + nb + "```";
    CleanEditContentsOfFence(nb);
    LStripNewline(body);
  }

  lemma LStripNewline(body: string)
    ensures LStrip("\n" + body) == LStrip(body)
  {
    var nb := "\n" + body;
    assert nb[0] == '\n' && IsWhitespace(nb[0]);
    assert nb[1..] == body;
  }

  /** On a python block whose fence line ends in a newline, edit_file's
      cleaning and `remove_code_block_tags` agree. */
  lemma CleanEditContentsAgreesWithCodeBlockTags(body: string)
    ensures CleanEditContents("```python\n" + body + "```") == ToolUtils.RemoveCodeBlockTags("```python\n" + body + "```")
  {
    var code := "```python\n" + body + "```";
    assert CleanEditContents(code) == LStrip(body) by {
      CleanEditOfNewlineFence(body);
    }
    assert ToolUtils.RemoveCodeBlockTags(code) == LStrip(body) by {
      PythonHasNoNewline();
      ToolUtils.RemoveCodeBlockTagsOfFence("python", body);
      PythonFenceSpelling(body);
    }
  }

  lemma PythonHasNoNewline()
    ensures '\n' !in "python"
  {
  }

  lemma PythonFenceSpelling(body: string)
    ensures "```" + "python" + "\n" + body + "```" == "```python\n" + body + "```"
  {
    assert "```" + "python" + "\n" == "```python\n";
  }

  /** The review comments of edit_file and create_file start with these. */
  const EditIssuesPreamble: string := "The code you provided has the following issues"
  const CreateIssuesPreamble: string := "The code you provided for the new file has the following issues"

  /** The review comment: the linter's issues on bulleted lines under the
      preamble; `lint` is the linter on `.py` files, None when it printed nothing. */
  function ReviewComment(preamble: string, path: string, code: string, lint: string -> Option<seq<string>>): Option<string> {
    var results := if EndsWith(path, ".py") then lint(code) else None;
    if results.Some? && results.value != [] then
      Some(preamble + ":\n* " + Join("\n* ", results.value) + "\n\nPlease address these issues before continuing.")
    else None
  }

  /** The linter runs on `.py` files only; a review comment is given exactly
      when it reports at least one issue, and it starts with the preamble
      and the first issue. */
  lemma ReviewCommentListsIssues(preamble: string, path: string, code: string, lint: string -> Option<seq<string>>)
    ensures var c := ReviewComment(preamble, path, code, lint);
            && (c.Some? <==> EndsWith(path, ".py") && lint(code).Some? && lint(code).value != [])
            && (c.Some? ==> StartsWith(c.value, preamble + ":\n* " + lint(code).value[0]))
  {
    var results := if EndsWith(path, ".py") then lint(code) else None;
    if results.Some? && results.value != [] {
      var head := preamble + ":\n* ";
      var bullets := Join("\n* ", results.value);
      assert bullets[..|results.value[0]|] == results.value[0];
      assert (head + bullets + "\n\nPlease address these issues before continuing.")[..|head| + |results.value[0]|]
             == head + results.value[0];
    }
  }

  /** The code block of edit_file and create_file is marked python exactly for `.py` files. */
  function PythonFileIdentifier(path: string): string {
    if EndsWith(path, ".py") then "python" else ""
  }

  /** What edit_file reports, with `python_file` read as "the path ends in .py". */
  function EditFileObservation(path: string, commitMessage: string, contents: string, review: Option<string>): Observation {
    Observation(EditFileHead(path, commitMessage) + CodeBlock(PythonFileIdentifier(path), contents),
                "Edited the file '" + path + "'.\nCommit message: " + commitMessage,
                fileViewerChanged := true, fileViewerNewContent := Some(contents), reviewComment := review)
  }

  function EditFileHead(path: string, commitMessage: string): string {
    "Edited the file '" + path + "'.\nCommit message: '" + commitMessage + "'.\nNew contents of " + path + ":\n"
  }

  /** edit_file's report names the file and the commit message, then shows
      the new contents in a code block marked python exactly for a `.py`
      file, and carries the review comment. */
  lemma EditFileObservationShowsContents(path: string, commitMessage: string, contents: string, review: Option<string>)
    ensures var o := EditFileObservation(path, commitMessage, contents, review);
            && o.fileViewerChanged && o.fileViewerNewContent == Some(contents) && o.reviewComment == review
            && o.observationDescription == EditFileHead(path, commitMessage) + CodeBlock(PythonFileIdentifier(path), contents)
            && o.summarisedObservationDescription == "Edited the file '" + path + "'.\nCommit message: " + commitMessage
            && EndsWith(o.observationDescription, CodeBlock(PythonFileIdentifier(path), contents))
            && !o.terminalOutput && o.terminalContent == None
  {
    EndsWithConcat(EditFileHead(path, commitMessage), CodeBlock(PythonFileIdentifier(path), contents));
  }

  /** What reading an unbound local variable raises. */
  const PythonFileUnboundMessage: string :=
    "cannot access local variable 'python_file' where it is not associated with a value"

  /** edit_file's report as written: `python_file` is assigned on the `.py`
      branch only, so building the description fails for any other file. */
  function EditFileObservationAsWritten(path: string, commitMessage: string, contents: string, review: Option<string>): (r: Result<Observation>)
    ensures r.Success? <==> EndsWith(path, ".py")
    ensures r.Success? ==> r.value == EditFileObservation(path, commitMessage, contents, review)
  {
    if EndsWith(path, ".py") then Success(EditFileObservation(path, commitMessage, contents, review))
    else Failure(UnboundLocalError(PythonFileUnboundMessage))
  }

  /** Editing "notes.txt": the code as written raises once the file is
      already edited, where an observation with an unmarked block is meant. */
  lemma EditOfTextFileAsWritten()
    ensures EditFileObservationAsWritten("notes.txt", "fix", "x = 1", None) == Failure(UnboundLocalError(PythonFileUnboundMessage))
    ensures EndsWith(EditFileObservation("notes.txt", "fix", "x = 1", None).observationDescription, CodeBlock("", "x = 1"))
  {
    assert !EndsWith("notes.txt", ".py") by {
      assert "notes.txt"[6..] != ".py";
    }
    EditFileObservationShowsContents("notes.txt", "fix", "x = 1", None);
  }

  /** What create_file reports, with `python_file` read as "the path ends in .py". */
  function CreateFileObservation(path: string, contents: string, fileList: string, review: Option<string>): Observation {
    Observation(CreateFileHead(path, fileList) + CodeBlock(PythonFileIdentifier(path), contents),
                CreateFileSummary(path),
                fileViewerChanged := true, fileViewerNewContent := Some(contents), reviewComment := review)
  }

  function CreateFileSummary(path: string): string {
    "Created a new file '" + path + "'"
  }

  function CreateFileHead(path: string, fileList: string): string {
    CreateFileSummary(path) + CreateFileListing(path, fileList)
  }

  function CreateFileListing(path: string, fileList: string): string {
    ", and opened it in the file editor.\n"
    + "The codebase now contains the following files:\n" + fileList + "\n\nContents of " + path + ":\n"
  }

  /** create_file's report lists the files of the codebase and shows the
      contents in a code block marked python exactly for a `.py` file; the
      summary is the first sentence of the full description. */
  lemma CreateFileObservationShowsContents(path: string, contents: string, fileList: string, review: Option<string>)
    ensures var o := CreateFileObservation(path, contents, fileList, review);
            && o.fileViewerChanged && o.fileViewerNewContent == Some(contents) && o.reviewComment == review
            && EndsWith(o.observationDescription, CodeBlock(PythonFileIdentifier(path), contents))
            && o.summarisedObservationDescription == "Created a new file '" + path + "'"
            && StartsWith(o.observationDescription, o.summarisedObservationDescription)
            && !o.terminalOutput && o.terminalContent == None
  {
    var summary := CreateFileSummary(path);
    var head := CreateFileHead(path, fileList);
    var block := CodeBlock(PythonFileIdentifier(path), contents);
    PrefixAndSuffix(head, block);
    PrefixAndSuffix(summary, CreateFileListing(path, fileList));
    StartsWithTransitive(head + block, head, summary);
  }

  /** create_file's report as written: fails for every file but a `.py` one. */
  function CreateFileObservationAsWritten(path: string, contents: string, fileList: string, review: Option<string>): (r: Result<Observation>)
    ensures r.Success? <==> EndsWith(path, ".py")
    ensures r.Success? ==> r.value == CreateFileObservation(path, contents, fileList, review)
  {
    if EndsWith(path, ".py") then Success(CreateFileObservation(path, contents, fileList, review))
    else Failure(UnboundLocalError(PythonFileUnboundMessage))
  }

  /** Creating "README.md": the code as written raises once the file is
      already added, where an observation with an unmarked block is meant. */
  lemma CreateOfMarkdownFileAsWritten()
    ensures CreateFileObservationAsWritten("README.md", "# Title", "* README.md", None) == Failure(UnboundLocalError(PythonFileUnboundMessage))
    ensures EndsWith(CreateFileObservation("README.md", "# Title", "* README.md", None).observationDescription, CodeBlock("", "# Title"))
  {
    assert !EndsWith("README.md", ".py") by {
      assert "README.md"[6..] != ".py";
    }
    CreateFileObservationShowsContents("README.md", "# Title", "* README.md", None);
  }

  /** The terminal pane: both streams, newline-separated, when either is
      non-empty; otherwise a fixed text. */
  function TerminalContent(stdout: string, stderr: string, quietText: string): (t: string)
    ensures stdout != "" || stderr != "" ==> t == stdout + "\n" + stderr
    ensures stdout != "" || stderr != "" ==> StartsWith(t, stdout) && EndsWith(t, stderr)
    ensures stdout == "" && stderr == "" ==> t == quietText
  {
    if stdout != "" || stderr != "" then
      StartsWithConcat(stdout, "\n" + stderr);
      EndsWithConcat(stdout + "\n", stderr);
      assert stdout + "\n" + stderr == stdout + ("\n" + stderr);
      stdout + "\n" + stderr
    else quietText
  }

  const ScriptQuietText: string := "The script ran successfully with no output."

  function ScriptHeader(path: string, environment: string): string {
    "Ran the Python script '" + path + "' in the '" + environment + "' environment."
  }

  /** A stream's text in a titled code block, on the lines after what precedes it. */
  function StreamSection(title: string, text: string): string {
    "\n" + title + ":\n```\n" + text + "\n```"
  }

  /** The sentence after the header of a script run's summary, chosen by which
      streams are non-empty. */
  function ScriptSummaryTail(hasStdout: bool, hasStderr: bool): string {
    if hasStdout && hasStderr then ""
    else if hasStdout then "The script ran successfully with no errors."
    else if hasStderr then "The script ran with errors."
    else ScriptQuietText
  }

  /** run_python_script's full and summarised descriptions, by which of the
      two streams are empty. */
  function ScriptDescriptions(path: string, environment: string, stdout: string, stderr: string): (string, string) {
    var header := ScriptHeader(path, environment);
    var summary := header + ScriptSummaryTail(stdout != "", stderr != "");
    if stdout != "" && stderr != "" then
      (header + StreamSection("stdout", stdout) + StreamSection("stderr", stderr), summary)
    else if stdout != "" then (header + StreamSection("stdout", stdout), summary)
    else if stderr != "" then (header + StreamSection("stderr", stderr), summary)
    else (summary, summary)
  }

  lemma ScriptSummaryStartsWithHeader(path: string, environment: string, stdout: string, stderr: string)
    ensures StartsWith(ScriptDescriptions(path, environment, stdout, stderr).1, ScriptHeader(path, environment))
  {
    PrefixAndSuffix(ScriptHeader(path, environment), ScriptSummaryTail(stdout != "", stderr != ""));
  }

  lemma ScriptFullStartsWithHeader(path: string, environment: string, stdout: string, stderr: string)
    ensures StartsWith(ScriptDescriptions(path, environment, stdout, stderr).0, ScriptHeader(path, environment))
  {
    var header := ScriptHeader(path, environment);
    var out := StreamSection("stdout", stdout);
    var err := StreamSection("stderr", stderr);
    if stdout != "" && stderr != "" {
      PrefixAndSuffix(header, out);
      PrefixAndSuffix(header + out, err);
      StartsWithTransitive(header + out + err, header + out, header);
    } else if stdout != "" {
      PrefixAndSuffix(header, out);
    } else if stderr != "" {
      PrefixAndSuffix(header, err);
    } else {
      PrefixAndSuffix(header, ScriptSummaryTail(false, false));
    }
  }

  lemma ScriptFullShowsStdout(path: string, environment: string, stdout: string, stderr: string)
    requires stdout != ""
    ensures StartsWith(ScriptDescriptions(path, environment, stdout, stderr).0,
                       ScriptHeader(path, environment) + StreamSection("stdout", stdout))
  {
    var out := ScriptHeader(path, environment) + StreamSection("stdout", stdout);
    if stderr != "" {
      PrefixAndSuffix(out, StreamSection("stderr", stderr));
    }
  }

  lemma ScriptFullShowsStderr(path: string, environment: string, stdout: string, stderr: string)
    requires stderr != ""
    ensures EndsWith(ScriptDescriptions(path, environment, stdout, stderr).0, StreamSection("stderr", stderr))
  {
    var header := ScriptHeader(path, environment);
    if stdout != "" {
      PrefixAndSuffix(header + StreamSection("stdout", stdout), StreamSection("stderr", stderr));
    } else {
      PrefixAndSuffix(header, StreamSection("stderr", stderr));
    }
  }

  /** A stream's section, or nothing when the stream is empty. */
  function OptionalSection(title: string, text: string): string {
    if text != "" then StreamSection(title, text) else ""
  }

  /** With some output, the full description is the header, then the stdout
      section, then the stderr section, an empty stream adding nothing. */
  lemma ScriptFullText(path: string, environment: string, stdout: string, stderr: string)
    requires stdout != "" || stderr != ""
    ensures ScriptDescriptions(path, environment, stdout, stderr).0
            == ScriptHeader(path, environment) + OptionalSection("stdout", stdout) + OptionalSection("stderr", stderr)
  {
    var header := ScriptHeader(path, environment);
    if stdout == "" {
      assert header + "" == header;
    } else if stderr == "" {
      assert header + StreamSection("stdout", stdout) + "" == header + StreamSection("stdout", stdout);
    }
  }

  /** Both descriptions start with the header; the full one shows the stdout
      section first and the stderr section last, each when its stream is
      non-empty, and is the summary when both are empty. The summary depends
      on the streams only through their emptiness. */
  lemma ScriptDescriptionsShape(path: string, environment: string, stdout: string, stderr: string)
    ensures var d := ScriptDescriptions(path, environment, stdout, stderr);
            && StartsWith(d.0, ScriptHeader(path, environment)) && StartsWith(d.1, ScriptHeader(path, environment))
            && d.1 == ScriptHeader(path, environment) + ScriptSummaryTail(stdout != "", stderr != "")
            && (stdout != "" ==> StartsWith(d.0, ScriptHeader(path, environment) + StreamSection("stdout", stdout)))
            && (stderr != "" ==> EndsWith(d.0, StreamSection("stderr", stderr)))
            && (stdout == "" && stderr == "" ==> d.0 == d.1)
            && (stdout != "" || stderr != "" ==>
                  d.0 == ScriptHeader(path, environment) + OptionalSection("stdout", stdout) + OptionalSection("stderr", stderr))
  {
    ScriptSummaryStartsWithHeader(path, environment, stdout, stderr);
    ScriptFullStartsWithHeader(path, environment, stdout, stderr);
    if stdout != "" {
      ScriptFullShowsStdout(path, environment, stdout, stderr);
    }
    if stderr != "" {
      ScriptFullShowsStderr(path, environment, stdout, stderr);
    }
    if stdout != "" || stderr != "" {
      ScriptFullText(path, environment, stdout, stderr);
    }
  }

  /** The summary of a script run never shows the streams' text: runs whose
      streams are empty or not alike are summarised alike. */
  lemma ScriptSummaryIgnoresStreamText(path: string, environment: string, out1: string, err1: string, out2: string, err2: string)
    requires (out1 == "") == (out2 == "") && (err1 == "") == (err2 == "")
    ensures ScriptDescriptions(path, environment, out1, err1).1 == ScriptDescriptions(path, environment, out2, err2).1
  {
  }

  /** run_python_script's `_use` once the process has run and left `stdout`
      and `stderr`: the image lookup fails for an environment the value check
      would have rejected. */
  function RunPythonScriptUse(path: string, environment: string, stdout: string, stderr: string): (r: Result<Observation>)
    ensures r.Success? <==> environment in EnvironmentToImage
    ensures r.Failure? ==> r.error == KeyError(Str(environment))
    ensures r.Success? ==>
              && (r.value.observationDescription, r.value.summarisedObservationDescription)
                   == ScriptDescriptions(path, environment, stdout, stderr)
              && r.value.terminalOutput
              && r.value.terminalContent == Some(TerminalContent(stdout, stderr, ScriptQuietText))
              && !r.value.fileViewerChanged && r.value.fileViewerNewContent == None && r.value.reviewComment == None
  {
    if environment !in EnvironmentToImage then Failure(KeyError(Str(environment)))
    else
      var d := ScriptDescriptions(path, environment, stdout, stderr);
      Success(Observation(d.0, d.1, terminalOutput := true,
                          terminalContent := Some(TerminalContent(stdout, stderr, ScriptQuietText))))
  }

  const TestsQuietText: string := "All tests ran successfully with no output."

  /** `subprocess.run(..., check=True)` raises exactly for a non-zero exit status. */
  function TestsPassed(exitStatus: int): bool {
    exitStatus == 0
  }

  function TestsSummary(environment: string, passed: bool): string {
    "Ran all tests in the codebase in the '" + environment + "' environment.\n"
    + (if passed then "All tests ran successfully with no errors." else "There were errors when running the tests.")
  }

  /** run_all_tests' full and summarised descriptions. The backslash before
      STDOUT is kept as the source's string literal has it. */
  function TestsDescriptions(environment: string, stdout: string, stderr: string, passed: bool): (d: (string, string))
    ensures d.1 == TestsSummary(environment, passed)
    ensures StartsWith(d.0, d.1)
    ensures passed ==> d.0 == d.1
    ensures !passed ==> |d.0| == |d.1|
                                 + (if stdout != "" then |"\\STDOUT:\n```\n" + stdout + "\n```"| else 0)
                                 + (if stderr != "" then |"\nSTDERR:\n```\n" + stderr + "\n```"| else 0)
    ensures !passed && stderr != "" ==> EndsWith(d.0, "\nSTDERR:\n```\n" + stderr + "\n```")
    ensures !passed && stdout != "" && stderr == "" ==> EndsWith(d.0, "\\STDOUT:\n```\n" + stdout + "\n```")
    ensures !passed ==> d.0 == d.1 + (if stdout != "" then "\\STDOUT:\n```\n" + stdout + "\n```" else "")
                                   + (if stderr != "" then "\nSTDERR:\n```\n" + stderr + "\n```" else "")
  {
    var summary := TestsSummary(environment, passed);
    if passed then (summary, summary)
    else
      var withOut := summary + (if stdout != "" then "\\STDOUT:\n```\n" + stdout + "\n```" else "");
      var full := withOut + (if stderr != "" then "\nSTDERR:\n```\n" + stderr + "\n```" else "");
      StartsWithConcat(summary, withOut[|summary|..]);
      assert withOut == summary + withOut[|summary|..];
      StartsWithConcat(withOut, full[|withOut|..]);
      assert full == withOut + full[|withOut|..];
      assert full[..|summary|] == withOut[..|summary|];
      EndsWithConcat(withOut, "\nSTDERR:\n```\n" + stderr + "\n```");
      EndsWithConcat(summary, "\\STDOUT:\n```\n" + stdout + "\n```");
      (full, summary)
  }

  /** The summary of a test run shows neither stream. */
  lemma TestsSummaryIgnoresStreams(environment: string, out1: string, err1: string, out2: string, err2: string, passed: bool)
    ensures TestsDescriptions(environment, out1, err1, passed).1 == TestsDescriptions(environment, out2, err2, passed).1
  {
  }

  /** run_all_tests' `_use` once the process has run, with its exit status. */
  function RunAllTestsUse(environment: string, stdout: string, stderr: string, exitStatus: int): (r: Result<Observation>)
    ensures r.Success? <==> environment in EnvironmentToImage
    ensures r.Failure? ==> r.error == KeyError(Str(environment))
    ensures r.Success? ==>
              && (r.value.observationDescription, r.value.summarisedObservationDescription)
                   == TestsDescriptions(environment, stdout, stderr, exitStatus == 0)
              && r.value.terminalOutput
              && r.value.terminalContent == Some(TerminalContent(stdout, stderr, TestsQuietText))
              && !r.value.fileViewerChanged && r.value.fileViewerNewContent == None && r.value.reviewComment == None
  {
    if environment !in EnvironmentToImage then Failure(KeyError(Str(environment)))
    else
      var d := TestsDescriptions(environment, stdout, stderr, TestsPassed(exitStatus));
      Success(Observation(d.0, d.1, terminalOutput := true,
                          terminalContent := Some(TerminalContent(stdout, stderr, TestsQuietText))))
  }

  // ----- `_use` on the agent -----

  predicate StringArgument(arguments: Arguments, name: string) {
    name in arguments.entries && arguments.entries[name].Str?
  }

  function StringValue(arguments: Arguments, name: string): string
    requires StringArgument(arguments, name)
  {
    arguments.entries[name].s
  }

  /** open_file's effect: the file viewer points at `path`; the step, the
      task flag and the codebase are kept; the result shows the file's current
      contents, or is a key miss when the codebase has no file at `path`. */
  twostate predicate OpenedEffect(agent: Agents.Agent, path: string, new r: Result<Observation>)
    requires agent.Valid()
    reads agent, agent.codebase
  {
    && agent.openFileRelativePath == Some(path)
    && agent.stepNumber == old(agent.stepNumber) && agent.taskCompleted == old(agent.taskCompleted)
    && unchanged(agent.codebase)
    && r == if path in agent.codebase.files
            then Success(OpenFileObservation(path, agent.codebase.files[path].Contents()))
            else Failure(KeyError(Str(path)))
  }

  /** edit_file's effect: the agent's own fields and the order of the codebase
      are kept. When the file viewer points at a file of the codebase, that
      file gains the cleaned text as its newest version and the result reports
      the edit; otherwise nothing changes and the result is a key miss on the
      file viewer's path (None when no file is open). */
  twostate predicate EditedEffect(agent: Agents.Agent, commitMessage: string, newFileContents: string,
                                  new lint: string -> Option<seq<string>>, new r: Result<Observation>)
    reads agent, agent.codebase
  {
    && unchanged(agent)
    && agent.codebase.order == old(agent.codebase.order)
    && var open := agent.openFileRelativePath;
    && var contents := CleanEditContents(newFileContents);
    if open.Some? && open.value in old(agent.codebase.files) then
      var path := open.value;
      && agent.codebase.files == old(agent.codebase.files)[path := old(agent.codebase.files[path]).UpdateContents(contents)]
      && r == Success(EditFileObservation(path, commitMessage, contents,
                                          ReviewComment(EditIssuesPreamble, path, contents, lint)))
    else
      && agent.codebase.files == old(agent.codebase.files)
      && r == Failure(KeyError(if open.None? then NoneValue else Str(open.value)))
  }

  /** create_file's effect: `path` holds a new file whose only version is
      `contents`, a path new to the codebase goes to the end of its order, the
      file viewer points at it, the step and the task flag are kept, and the
      result lists the codebase's files as they now are. */
  twostate predicate CreatedEffect(agent: Agents.Agent, path: string, contents: string,
                                   new lint: string -> Option<seq<string>>, new r: Result<Observation>)
    reads agent, agent.codebase
  {
    && agent.codebase.files == old(agent.codebase.files)[path := CodebaseStore.NewSourceFile(path, contents)]
    && agent.codebase.order == (if path in old(agent.codebase.files) then old(agent.codebase.order)
                                else old(agent.codebase.order) + [path])
    && agent.openFileRelativePath == Some(path)
    && agent.stepNumber == old(agent.stepNumber) && agent.taskCompleted == old(agent.taskCompleted)
    && r == Success(CreateFileObservation(path, contents, agent.codebase.FormattedRelativeFilePaths(),
                                          ReviewComment(CreateIssuesPreamble, path, contents, lint)))
  }

  /** complete_task's effect: the task is marked done; the step, the file
      viewer and the codebase are kept. */
  twostate predicate CompletedEffect(agent: Agents.Agent, new r: Result<Observation>)
    reads agent, agent.codebase
  {
    && agent.taskCompleted
    && agent.stepNumber == old(agent.stepNumber) && agent.openFileRelativePath == old(agent.openFileRelativePath)
    && unchanged(agent.codebase)
    && r == Success(NewObservation("Task completed.", "Task completed."))
  }

  /** open_file with its `file_path` argument: the file viewer points at the
      path before the file is looked up, so a path missing from the codebase
      still changes what the file viewer shows. */
  method OpenFileUse(agent: Agents.Agent, path: string) returns (r: Result<Observation>)
    requires agent.Valid()
    modifies agent
    ensures agent.Valid()
    ensures OpenedEffect(agent, path, r)
  {
    agent.openFileRelativePath := Some(path);
    var file := agent.codebase.RetrieveFile(path);
    if file.Failure? {
      return Failure(file.error);
    }
    return Success(OpenFileObservation(path, file.value.Contents()));
  }

  /** edit_file with its `commit_message` and `new_file_contents` arguments:
      the cleaned text becomes a new version of the open file; with no open
      file the lookup of None misses. The file viewer keeps pointing where it did. */
  method EditFileUse(agent: Agents.Agent, commitMessage: string, newFileContents: string,
                     lint: string -> Option<seq<string>>) returns (r: Result<Observation>)
    requires agent.Valid()
    modifies agent.codebase
    ensures agent.Valid()
    ensures EditedEffect(agent, commitMessage, newFileContents, lint, r)
  {
    var contents := CleanEditContents(newFileContents);
    if agent.openFileRelativePath.None? {
      r := Failure(KeyError(NoneValue));
      assert EditedEffect(agent, commitMessage, newFileContents, lint, r);
      return;
    }
    var path := agent.openFileRelativePath.value;
    var edited := agent.codebase.EditFile(path, contents);
    if edited.Failure? {
      assert path !in old(agent.codebase.files) && agent.codebase.files == old(agent.codebase.files);
      r := Failure(edited.error);
      assert EditedEffect(agent, commitMessage, newFileContents, lint, r);
      return;
    }
    assert path in old(agent.codebase.files);
    var review := ReviewComment(EditIssuesPreamble, path, contents, lint);
    r := Success(EditFileObservation(path, commitMessage, contents, review));
    assert EditedEffect(agent, commitMessage, newFileContents, lint, r);
  }

  /** create_file with its `file_path` and `file_contents` arguments: the file
      is added with the contents as its only version and opened in the file viewer. */
  method CreateFileUse(agent: Agents.Agent, path: string, contents: string,
                       lint: string -> Option<seq<string>>) returns (o: Observation)
    requires agent.Valid()
    modifies agent, agent.codebase
    ensures agent.Valid()
    ensures CreatedEffect(agent, path, contents, lint, Success(o))
  {
    agent.codebase.AddFile(path, contents);
    agent.openFileRelativePath := Some(path);
    var review := ReviewComment(CreateIssuesPreamble, path, contents, lint);
    o := CreateFileObservation(path, contents, agent.codebase.FormattedRelativeFilePaths(), review);
  }

  /** complete_task: the task is marked done. */
  method CompleteTaskUse(agent: Agents.Agent) returns (o: Observation)
    modifies agent
    ensures CompletedEffect(agent, Success(o))
  {
    agent.taskCompleted := true;
    o := NewObservation("Task completed.", "Task completed.");
  }

  // ----- validate, then use -----

  /** What a failed validation turns into: a ValueError is reported to the
      model as an observation carrying its message; any other error escapes. */
  function Rejection(e: Error): (r: Result<Observation>)
    ensures e.ValueError? <==> r.Success?
    ensures r.Success? ==> r.value == NewObservation(e.message, e.message)
    ensures r.Failure? ==> r.error == e
  {
    if e.ValueError? then Success(NewObservation(e.message, e.message)) else Failure(e)
  }

  /** What a passed validation guarantees each tool's `_use`: its string
      arguments are strs, the paths are (or, for create_file, are not) files
      of the codebase, and the environment is a known one. */
  predicate ValidatedFacts(tool: Tool, cb: CodebaseStore.Codebase)
    reads cb
    requires cb.Valid()
  {
    var args := tool.arguments;
    match tool.kind
    case OpenFile => StringArgument(args, "file_path") && StringValue(args, "file_path") in cb.files
    case EditFile => StringArgument(args, "commit_message") && StringArgument(args, "new_file_contents")
    case CreateFile =>
      && StringArgument(args, "file_path") && StringArgument(args, "file_contents")
      && StringValue(args, "file_path") !in cb.files
    case RunPythonScript =>
      && StringArgument(args, "script_path") && StringValue(args, "script_path") in cb.files
      && StringArgument(args, "environment") && StringValue(args, "environment") in EnvironmentToImage
    case RunAllTests => StringArgument(args, "environment") && StringValue(args, "environment") in EnvironmentToImage
    case CompleteTask => true
  }

  lemma ValidationGivesFacts(tool: Tool, cb: CodebaseStore.Codebase)
    requires cb.Valid() && Shaped(tool.kind, tool.parameters)
    requires Validation(tool, ValueCheck(tool, cb)).Success?
    ensures ValidatedFacts(tool, cb)
  {
    var vc := ValueCheck(tool, cb);
    assert vc.Success?;
    match tool.kind {
      case OpenFile =>
        ValidatedStringArgument(tool, vc, 0);
        assert OpenFileValueCheck(tool.arguments, cb).Success?;
      case EditFile =>
        ValidatedStringArgument(tool, vc, 0);
        ValidatedStringArgument(tool, vc, 1);
      case CreateFile =>
        ValidatedStringArgument(tool, vc, 0);
        ValidatedStringArgument(tool, vc, 1);
        assert CreateFileValueCheck(tool.arguments, cb).Success?;
      case RunPythonScript =>
        ValidatedStringArgument(tool, vc, 0);
        ValidatedStringArgument(tool, vc, 2);
        assert RunPythonScriptValueCheck(tool.arguments, cb).Success?;
      case RunAllTests =>
        ValidatedStringArgument(tool, vc, 0);
        assert RunAllTestsValueCheck(tool.arguments).Success?;
      case CompleteTask =>
    }
  }

  /** The tool's `_use` on arguments that passed validation. Only edit_file can
      fail, when the file viewer shows no file of the codebase. */
  method UseValidated(agent: Agents.Agent, tool: Tool, lint: string -> Option<seq<string>>,
                      stdout: string, stderr: string, exitStatus: int)
    returns (r: Result<Observation>)
    requires agent.Valid() && ValidatedFacts(tool, agent.codebase)
    modifies agent, agent.codebase
    ensures agent.Valid()
    ensures r.Failure? ==> && tool.kind == EditFile
                           && (old(agent.openFileRelativePath).None? ||
                               old(agent.openFileRelativePath).value !in old(agent.codebase.files))
    ensures UsedEffect(agent, tool, lint, stdout, stderr, exitStatus, r)
  {
    match tool.kind {
      case OpenFile =>
        r := OpenFileUse(agent, StringValue(tool.arguments, "file_path"));
      case EditFile =>
        r := EditFileUse(agent, StringValue(tool.arguments, "commit_message"),
                         StringValue(tool.arguments, "new_file_contents"), lint);
      case CreateFile =>
        var o := CreateFileUse(agent, StringValue(tool.arguments, "file_path"),
                               StringValue(tool.arguments, "file_contents"), lint);
        r := Success(o);
      case RunPythonScript =>
        r := RunPythonScriptUse(StringValue(tool.arguments, "script_path"), StringValue(tool.arguments, "environment"),
                                stdout, stderr);
      case RunAllTests =>
        r := RunAllTestsUse(StringValue(tool.arguments, "environment"), stdout, stderr, exitStatus);
      case CompleteTask =>
        var o := CompleteTaskUse(agent);
        r := Success(o);
    }
  }

  /** The effect of each tool's `_use` on the agent and its result, given the
      arguments passed validation. The run tools change nothing and report
      the given process outcome. */
  twostate predicate UsedEffect(agent: Agents.Agent, tool: Tool, new lint: string -> Option<seq<string>>,
                                stdout: string, stderr: string, exitStatus: int, new r: Result<Observation>)
    requires agent.Valid()
    reads agent, agent.codebase
  {
    var args := tool.arguments;
    match tool.kind
    case OpenFile =>
      && StringArgument(args, "file_path")
      && OpenedEffect(agent, StringValue(args, "file_path"), r)
    case EditFile =>
      && StringArgument(args, "commit_message") && StringArgument(args, "new_file_contents")
      && EditedEffect(agent, StringValue(args, "commit_message"), StringValue(args, "new_file_contents"), lint, r)
    case CreateFile =>
      && StringArgument(args, "file_path") && StringArgument(args, "file_contents")
      && CreatedEffect(agent, StringValue(args, "file_path"), StringValue(args, "file_contents"), lint, r)
    case RunPythonScript =>
      && StringArgument(args, "script_path") && StringArgument(args, "environment")
      && unchanged(agent) && unchanged(agent.codebase)
      && r == RunPythonScriptUse(StringValue(args, "script_path"), StringValue(args, "environment"), stdout, stderr)
    case RunAllTests =>
      && StringArgument(args, "environment")
      && unchanged(agent) && unchanged(agent.codebase)
      && r == RunAllTestsUse(StringValue(args, "environment"), stdout, stderr, exitStatus)
    case CompleteTask => CompletedEffect(agent, r)
  }

  /** Validates `tool` against the agent and, when it passes, runs the tool's
      `_use`. The run tools' process outcome (`stdout`, `stderr`,
      `exitStatus`) and the linter `lint` are given. On a rejection nothing
      changes. A validated tool never fails, except edit_file when the file
      viewer shows no file of the codebase. */
  method Dispatch(agent: Agents.Agent, tool: Tool, lint: string -> Option<seq<string>>,
                  stdout: string, stderr: string, exitStatus: int)
    returns (r: Result<Observation>, warnings: seq<string>)
    requires agent.Valid() && Shaped(tool.kind, tool.parameters)
    modifies agent, agent.codebase
    ensures agent.Valid()
    ensures var v := old(Validation(tool, ValueCheck(tool, agent.codebase)));
            if v.Failure? then
              && r == Rejection(v.error) && warnings == []
              && unchanged(agent) && unchanged(agent.codebase)
            else
              && warnings == v.value && UsedEffect(agent, tool, lint, stdout, stderr, exitStatus, r)
              && (r.Failure? ==> && tool.kind == EditFile
                                 && (old(agent.openFileRelativePath).None? ||
                                     old(agent.openFileRelativePath).value !in old(agent.codebase.files)))
  {
    var v := ValidateArguments(tool, ValueCheck(tool, agent.codebase));
    if v.Failure? {
      return Rejection(v.error), [];
    }
    warnings := v.value;
    ValidationGivesFacts(tool, agent.codebase);
    r := UseValidated(agent, tool, lint, stdout, stderr, exitStatus);
  }
}

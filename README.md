# pythoneer-agent, modelled in Dafny

Pythoneer is a coding agent. A language model drives it through tool calls over a Python codebase held in memory. This project models the agent's core:

- **The codebase store.** A map from relative path to a tracked source file. A file's list of versions only grows.
- **The tool framework.** Parameters and construction of tool instances. Validation is a three-stage pipeline: presence, then the tool's own value check, then types; unused arguments only cause a warning. The JSON description is what the language model is given.
- **The six concrete tools.** `open_file`, `edit_file`, `create_file`, `run_python_script`, `run_all_tests`, `complete_task`.
- **The tool registry.** It maps names to classes, and `register_all_tools` fills it.
- **The agent's mutable state.**
- **The tool-result message** sent back to the model.
- **The trajectory of steps.** Serialised as a list of records.
- **Parsing of a tool-use response** from the language-model API.

One Dafny module per source file:

| module | file | source |
|---|---|---|
| `Common` | common.dfy | Option/Result, the Python exceptions raised, argument values |
| `Strings` | strings.dfy | the `str` methods used |
| `Dicts` | dicts.dfy | insertion-ordered dicts |
| `PathNames` | paths.dfy | `pathlib` `.name` and `.suffix` |
| `ToolUtils` | utils.dfy | tools/utils.py |
| `Observations` | observations.dfy | tools/observations.py |
| `CodebaseStore` | codebase.dfy | codebase.py |
| `ToolBase` | base.dfy | tools/base.py |
| `Tools` | tools.dfy | tools/tools.py |
| `ToolFactories` | factory.dfy | tools/factory.py |
| `ToolRegistration` | registration.dfy | tools/\_\_init\_\_.py |
| `Agents` | agent.dfy | agent.py |
| `Messages` | messages.dfy | messages.py |
| `Trajectories` | trajectory.dfy | trajectory.py |
| `Llm` | llm.dfy | llm.py |

State that Python changes in place is modelled as classes:

- `CodebaseStore.Codebase`, whose `files` map and insertion `order` are reassigned by its methods;
- `Agents.Agent`;
- `ToolFactories.ToolFactory`;
- `Trajectories.Trajectory`.

Each tool's `_use` is a method on the agent. It is proved against a two-state predicate that states its effect on the agent and its result, in terms of functions that describe the observation the tool returns.

Where the code and its documentation disagree, the model follows the evident intent of the code. Each such place is listed below:

- The tools call `codebase.get_relative_file_paths()`. `Codebase` defines the method as `_get_relative_file_paths` (codebase.py:54-56), so the call would raise `AttributeError`. The model gives the codebase one accessor, `RelativeFilePaths`.
- `codebase.add_file` is called with the new file's contents (tools.py:194), but it is defined with a path only and reads the file from disk (codebase.py:33-36). The model's `AddFile` takes the contents.
- `Parameter` is declared without an `enum` field, but two tools pass `enum=` (tools.py:265, 420). The model gives `Parameter` an `enumValues` field. `json_description` does not read it, as in the code.
- `Agent.__init__` never sets `task_completed`; the model starts it at false.
- `edit_file` has no value check (tools.py:102-103), although its description asks for an open file. With no open file, `_use` looks up `None` in the codebase and raises `KeyError`; the model's `Tools.EditedEffect` states that failure, with nothing changed.
- `Tool.use` calls `self.self.validate_arguments()` without the agent, and builds its observation from `self.step` (base.py:83-89). The model's `Tools.Dispatch` validates against the agent, then uses the tool. A `ValueError` becomes an observation whose two descriptions are the error message.
- `"\S"` in tools.py:535 is not a Python escape. It stays a backslash followed by `S`, and the model writes it that way.

## Model

| member | source | states |
|---|---|---|
| CodebaseStore.SourceFile.FileName | pythoneer/codebase.py:78-81 | the file name is the last component of the relative path once trailing separators and "." components are dropped, as `Path.name` drops them |
| CodebaseStore.SourceFile.Contents | pythoneer/codebase.py:100-103 | the contents are one of the file's versions, the latest; `UpdateContents` makes the appended version the contents |
| CodebaseStore.SourceFile.UpdateContents | pythoneer/codebase.py:86-88 | one version is appended and becomes the contents; path, name and every earlier version are kept |
| CodebaseStore.Bullets | pythoneer/codebase.py:48-51 | one "* path" line per path, in order |
| CodebaseStore.FormatPaths | pythoneer/codebase.py:46-52 | the file list is empty exactly when the codebase has no files |
| CodebaseStore.FormatPathsLines | pythoneer/codebase.py:46-52 | splitting the file list at newlines gives back the bulleted paths, in order |
| CodebaseStore.Codebase.constructor | pythoneer/codebase.py:14-31 | every file found is tracked under its path with one version, in the order found |
| CodebaseStore.Codebase.AddFile | pythoneer/codebase.py:33-36 | the entry at the path becomes a fresh one-version file; a new path goes last in the order, an existing one keeps its place |
| CodebaseStore.Codebase.RetrieveFile | pythoneer/codebase.py:38-40 | the tracked file at the path; a missing path is a KeyError naming it |
| CodebaseStore.Codebase.EditFile | pythoneer/codebase.py:42-44 | exactly one version is appended to that file; every other file and the set of paths are unchanged; a missing path is a KeyError naming it |
| CodebaseStore.Codebase.RelativeFilePaths | pythoneer/codebase.py:54-56 | each tracked path once, and nothing else |
| CodebaseStore.Codebase.FormattedRelativeFilePaths | pythoneer/codebase.py:46-52 | the file list formats the paths in insertion order, and is empty exactly when the codebase has no files |
| Agents.Agent.constructor | pythoneer/agent.py:9-13 | a codebase over the files found, step number 0, no open file, task not completed |
| Agents.Agent.Step | pythoneer/agent.py:15-16 | the stub step changes nothing |
| Observations.NewObservation | pythoneer/tools/observations.py:10-55 | the two descriptions are as given; every optional field has its default |
| ToolBase.Construct | pythoneer/tools/base.py:39-55 | an abstract class raises TypeError; a class with NAME, DESCRIPTION or PARAMETERS unset raises NotImplementedError; otherwise the instance holds the class attributes and the arguments |
| ToolBase.PresenceCheck | pythoneer/tools/base.py:158-164 | succeeds iff every required parameter has an argument; otherwise a ValueError names the first missing one in declaration order |
| ToolBase.ValidateAllParametersPresent | pythoneer/tools/base.py:158-164 | the loop over the parameters gives the presence check's verdict |
| ToolBase.TypeCheck | pythoneer/tools/base.py:166-178 | succeeds iff each given argument has its parameter's type ("string" read as str); otherwise a ValueError names the first mismatch, expected and actual type |
| ToolBase.ValidateArgumentTypes | pythoneer/tools/base.py:166-178 | the loop over the parameters gives the type check's verdict |
| ToolBase.ParameterNames | pythoneer/tools/base.py:183 | the parameter names, in declaration order |
| ToolBase.UnusedWarnings | pythoneer/tools/base.py:180-184 | no warnings iff every argument names a parameter; each warning names one such argument and the tool |
| ToolBase.WarnUnusedArguments | pythoneer/tools/base.py:180-184 | the forward loop over the arguments logs exactly those warnings, in argument order |
| ToolBase.Validation | pythoneer/tools/base.py:57-62 | passes iff all required arguments are present, the value check passes and all types match; then the result is the unused-argument warnings |
| ToolBase.ValidateArguments | pythoneer/tools/base.py:57-62 | running the stages in turn gives that verdict |
| ToolBase.MissingArgumentFailsFirst | pythoneer/tools/base.py:57-62 | a missing required argument is reported before anything else, naming the first missing one |
| ToolBase.ValidatedStringArgument | pythoneer/tools/base.py:166-178 | after validation a required "string" parameter has a str argument |
| ToolBase.ValueCheckFailsBeforeTypes | pythoneer/tools/base.py:57-62 | with all arguments present, a failing value check is the error, whatever the types |
| ToolBase.TypeMismatchFailsThird | pythoneer/tools/base.py:57-62 | when presence and the value check pass, the first type mismatch is the error |
| ToolBase.UnusedArgumentNeverRaises | pythoneer/tools/base.py:180-184 | adding an argument that names no parameter never changes whether validation passes |
| ToolBase.Properties | pythoneer/tools/base.py:118-123 | the properties dict is a well-formed dict |
| ToolBase.PropertiesKeys | pythoneer/tools/base.py:118-123 | properties has a key for each parameter name and no other |
| ToolBase.PropertiesOfDistinct | pythoneer/tools/base.py:118-123 | with distinct names, properties lists the parameters in order, each with its own type and description |
| ToolBase.RequiredNames | pythoneer/tools/base.py:125 | exactly the names of the required parameters |
| ToolBase.RequiredNamesAppend | pythoneer/tools/base.py:125 | the required list keeps declaration order |
| ToolBase.JsonDescription | pythoneer/tools/base.py:110-137 | unset PARAMETERS raise TypeError; otherwise the schema holds name, description, the properties and the required names |
| ToolFactories.ToolFactory.constructor | pythoneer/tools/factory.py:9-13 | the registry starts empty |
| ToolFactories.ToolFactory.RegisterTool | pythoneer/tools/factory.py:15-17 | the class is filed under its NAME, replacing any earlier one; every other entry is kept |
| ToolFactories.ToolFactory.CreateTool | pythoneer/tools/factory.py:19-46 | an unknown name raises ValueError("Unknown tool: …"); a known one gives what constructing the registered class on the arguments gives; a created tool holds that class's name, description, parameters and the arguments |
| ToolRegistration.ClassNames | pythoneer/tools/tools.py:20-547 | the NAME of each of the six classes |
| ToolRegistration.RegisterAllTools | pythoneer/tools/__init__.py:27-33 | the registry after the six registrations, in the source's order |
| ToolRegistration.EachNameMapsToItsClass | pythoneer/tools/__init__.py:27-33 | afterwards each tool's name leads to its own class, whatever was registered before |
| ToolRegistration.RegisterAllToolsIdempotent | pythoneer/tools/__init__.py:27-33 | registering twice gives the registry that registering once gives |
| ToolRegistration.RegistryFromEmpty | pythoneer/tools/__init__.py:27-33 | from an empty registry exactly the six tool names are filed |
| Tools.ClassOf | pythoneer/tools/tools.py:20-547 | every concrete tool class is concrete and sets NAME, DESCRIPTION and PARAMETERS |
| Tools.ClassOfIsNamed | pythoneer/tools/tools.py:20-547 | each class is named by its tool, and no two tools share a name |
| Tools.ClassOfDeclaresParameters | pythoneer/tools/tools.py:30-547 | each class declares its tool's parameter list |
| Tools.DeclaredParametersShaped | pythoneer/tools/tools.py:30-547 | each tool declares the required string parameters its `_use` reads; script_arguments is optional |
| Tools.Argument | pythoneer/tools/tools.py:40 | an argument lookup gives the value, or a KeyError naming the parameter |
| Tools.EnvironmentCheck | pythoneer/tools/tools.py:285-291 | passes iff the environment is python2 or python3; an unhashable value raises TypeError; otherwise a ValueError lists the valid environments |
| Tools.OpenFileValueCheck | pythoneer/tools/tools.py:38-46 | passes iff file_path is a file of the codebase; otherwise a ValueError that lists the files |
| Tools.CreateFileValueCheck | pythoneer/tools/tools.py:179-187 | passes iff file_path is not yet a file of the codebase; otherwise a ValueError that lists the files |
| Tools.RunPythonScriptValueCheck | pythoneer/tools/tools.py:275-291 | the script path is checked first, then the environment |
| Tools.RunAllTestsValueCheck | pythoneer/tools/tools.py:429-437 | the environment check of the arguments |
| Tools.ValueCheck | pythoneer/tools/tools.py:38-437 | each tool's own value check; edit_file and complete_task have none. The three Reject lemmas below state what it rejects |
| Tools.OpenFileRejectsUnknownPath | pythoneer/tools/tools.py:38-46 | validating open_file on a path outside the codebase fails with the "does not exist" ValueError |
| Tools.CreateFileRejectsExistingPath | pythoneer/tools/tools.py:179-187 | validating create_file on an existing path fails with the "already exists" ValueError |
| Tools.RunToolsRejectUnknownEnvironment | pythoneer/tools/tools.py:429-437 | both run tools reject an unknown environment with the environment check's error |
| Tools.OpenFileObservation | pythoneer/tools/tools.py:48-69 | the file viewer shows the contents; the summary is "Opened the file '<path>'"; the description starts with the summary and ends with the contents in a python block |
| Tools.CleanEditContents | pythoneer/tools/tools.py:111-115 | the text edit_file stores; the CleanEdit lemmas below state what it keeps |
| Tools.CleanEditContentsIsSlice | pythoneer/tools/tools.py:111-115 | the stored text is a slice of the model's text that does not start with whitespace |
| Tools.CleanEditContentsOfFence | pythoneer/tools/tools.py:111-115 | a block fenced as "```python" … "```" becomes its body without leading whitespace |
| Tools.CleanEditContentsWithoutFence | pythoneer/tools/tools.py:111-115 | text without the fences only loses leading whitespace |
| Tools.CleanEditOfNewlineFence | pythoneer/tools/tools.py:111-115 | the newline after "```python" goes with the leading whitespace |
| Tools.CleanEditContentsAgreesWithCodeBlockTags | pythoneer/tools/tools.py:111-115 | on a python block, edit_file's cleaning agrees with `remove_code_block_tags` |
| Tools.ReviewComment | pythoneer/tools/tools.py:119-133 | the linter's review of the written code; `ReviewCommentListsIssues` states when there is one and how it reads |
| Tools.ReviewCommentListsIssues | pythoneer/tools/tools.py:119-133 | a review comment is given iff the path ends in .py and the linter reports issues; it starts with the preamble and the first issue |
| Tools.EditFileObservation | pythoneer/tools/tools.py:135-150 | edit_file's report, corrected for the unbound `python_file`; `EditFileObservationShowsContents` states its contents |
| Tools.EditFileObservationShowsContents | pythoneer/tools/tools.py:135-150 | the full description is exactly the head naming the file and the quoted commit message, then the new contents in a block marked python exactly for .py files; the summary is exactly "Edited the file '<path>'." and the commit message; the review comment is carried |
| Tools.EditFileObservationAsWritten | pythoneer/tools/tools.py:119-137 | as written, the report succeeds iff the path ends in .py, and then equals the corrected one |
| Tools.EditOfTextFileAsWritten | pythoneer/tools/tools.py:119-137 | editing notes.txt raises UnboundLocalError as written; the corrected report shows an unmarked block |
| Tools.CreateFileObservation | pythoneer/tools/tools.py:215-229 | create_file's report, corrected for the unbound `python_file`; `CreateFileObservationShowsContents` states its contents |
| Tools.CreateFileObservationShowsContents | pythoneer/tools/tools.py:215-229 | the report lists the codebase's files, ends with the contents in a block marked python exactly for .py files, and carries the review comment |
| Tools.CreateFileObservationAsWritten | pythoneer/tools/tools.py:199-218 | as written, the report succeeds iff the path ends in .py, and then equals the corrected one |
| Tools.CreateOfMarkdownFileAsWritten | pythoneer/tools/tools.py:199-218 | creating README.md raises UnboundLocalError as written; the corrected report shows an unmarked block |
| Tools.TerminalContent | pythoneer/tools/tools.py:340-344 | with any output, exactly stdout, a newline, then stderr; otherwise the quiet text |
| Tools.ScriptDescriptions | pythoneer/tools/tools.py:355-402 | run_python_script's two descriptions, by which streams are empty; the lemmas below state their shape |
| Tools.ScriptDescriptionsShape | pythoneer/tools/tools.py:355-402 | both descriptions start with the header and the summary is the header plus the tail chosen by which streams are empty; with any output the full one is exactly the header, the stdout block if stdout is non-empty, then the stderr block if stderr is non-empty; with none it is the summary |
| Tools.ScriptFullText | pythoneer/tools/tools.py:363-386 | with some output, the full description is the header followed by each non-empty stream's titled block, stdout first; an empty stream adds nothing |
| Tools.ScriptSummaryStartsWithHeader | pythoneer/tools/tools.py:355-402 | the summary starts with the "Ran the Python script" header |
| Tools.ScriptFullStartsWithHeader | pythoneer/tools/tools.py:355-402 | the full description starts with the header |
| Tools.ScriptFullShowsStdout | pythoneer/tools/tools.py:363-376 | non-empty stdout follows the header in a titled block |
| Tools.ScriptFullShowsStderr | pythoneer/tools/tools.py:363-386 | non-empty stderr ends the full description in a titled block |
| Tools.ScriptSummaryIgnoresStreamText | pythoneer/tools/tools.py:355-402 | the summary depends only on which streams are empty, never on their text |
| Tools.RunPythonScriptUse | pythoneer/tools/tools.py:293-353 | an unknown environment is a KeyError; otherwise a terminal observation with those descriptions and the terminal content |
| Tools.TestsDescriptions | pythoneer/tools/tools.py:510-539 | the summary names the environment and the verdict; when the tests pass the full description is the summary; on failure it is exactly the summary, then the "\STDOUT" block if stdout is non-empty, then the STDERR block if stderr is non-empty |
| Tools.TestsSummaryIgnoresStreams | pythoneer/tools/tools.py:510-539 | the summary of a test run shows neither stream |
| Tools.RunAllTestsUse | pythoneer/tools/tools.py:439-508 | an unknown environment is a KeyError; otherwise a terminal observation whose descriptions follow from the exit status |
| Tools.OpenedEffect | pythoneer/tools/tools.py:48-69 | open_file's effect: the viewer points at the path; step, task flag and codebase are kept; the result shows the file's current contents, or is a KeyError for a missing path |
| Tools.EditedEffect | pythoneer/tools/tools.py:105-152 | edit_file's effect: the agent's fields and the codebase's order are kept; the open file gains the cleaned text as its newest version and the edit is reported; no open file, or one not in the codebase, is a KeyError that changes nothing |
| Tools.CreatedEffect | pythoneer/tools/tools.py:189-231 | create_file's effect: the file is added with one version, at the end of the order when new, and opened; step and task flag are kept; the report lists the files afterwards |
| Tools.CompletedEffect | pythoneer/tools/tools.py:549-561 | complete_task's effect: the task is marked completed; step, viewer and codebase are kept; "Task completed." is reported |
| Tools.OpenFileUse | pythoneer/tools/tools.py:48-69 | has open_file's effect; the viewer points at the path before the lookup |
| Tools.EditFileUse | pythoneer/tools/tools.py:105-152 | has edit_file's effect |
| Tools.CreateFileUse | pythoneer/tools/tools.py:189-231 | has create_file's effect |
| Tools.CompleteTaskUse | pythoneer/tools/tools.py:549-561 | has complete_task's effect |
| Tools.Rejection | pythoneer/tools/base.py:83-87 | a ValueError becomes an observation carrying its message; any other error escapes |
| Tools.ValidationGivesFacts | pythoneer/tools/base.py:57-62 | after validation, each tool's arguments are strs and its paths and environment pass the value check |
| Tools.UsedEffect | pythoneer/tools/base.py:88-89 | each tool's effect and result by its kind; the run tools change nothing and report the process outcome |
| Tools.UseValidated | pythoneer/tools/base.py:88-89 | using a validated tool has that tool's effect on the agent and gives that tool's result; only edit_file can fail |
| Tools.Dispatch | pythoneer/tools/base.py:64-91 | a rejected tool changes nothing and reports the rejection; an accepted one returns the warnings, has its tool's effect and gives its tool's result |
| ToolUtils.Extension | pythoneer/tools/utils.py:35-36 | the extension has no dot |
| ToolUtils.IdentifierOfExtension | pythoneer/tools/utils.py:9-38 | a file stem.ext is identified by what ext maps to, or by ext itself |
| ToolUtils.RetrieveFileIdentifier | pythoneer/tools/utils.py:35-38 | the Markdown identifier of a path: what its extension maps to, else the extension; the lemmas below state it per kind of name |
| ToolUtils.IdentifierWithoutSuffix | pythoneer/tools/utils.py:35-38 | a name without a proper suffix gets the empty identifier |
| ToolUtils.IdentifierIgnoresTrailingSeparator | pythoneer/tools/utils.py:35-38 | a trailing separator or "." component does not change the identifier |
| ToolUtils.RemoveCodeBlockTags | pythoneer/tools/utils.py:64-75 | the result is a slice of the input and does not start with whitespace |
| ToolUtils.RemoveCodeBlockTagsOfFence | pythoneer/tools/utils.py:64-75 | a fenced block loses its fence line, closing fence and leading whitespace |
| ToolUtils.RemoveCodeBlockTagsWithoutFence | pythoneer/tools/utils.py:64-75 | unfenced text only loses leading whitespace |
| ToolUtils.RemoveCodeBlockTagsNoNewline | pythoneer/tools/utils.py:64-67 | an opening fence without a newline is kept, because find returns -1 |
| ToolUtils.FormatViolations | pythoneer/tools/utils.py:107-116 | no Ruff output gives None; otherwise one "row:column - code: message" line per violation, in order |
| ToolUtils.ViolationRowReadable | pythoneer/tools/utils.py:110 | the row can be read back from a formatted violation |
| PathNames.NameIsLastComponent | pythoneer/codebase.py:81 | trailing separators and "." components dropped, the path ends in a component; `.name` is that last component, and the only one |
| PathNames.TrimmedDropsOnlySeparators | pythoneer/codebase.py:81 | trimming leaves a path that ends in a component and removes only separators and dots |
| PathNames.NameIgnoresTrailingSeparator | pythoneer/codebase.py:81 | a trailing separator or "." component does not change `.name` |
| PathNames.Suffix | pythoneer/tools/utils.py:36 | `.suffix` is empty or a dot plus a dotless tail, and ends the name |
| Strings.LStrip | pythoneer/tools/utils.py:73 | the longest suffix that does not start with whitespace |
| Strings.Find | pythoneer/tools/utils.py:67 | the first index of the character, or -1 exactly when it is absent |
| Strings.Join | pythoneer/codebase.py:52 | the join starts with the first part |
| Messages.UserMessage.ReturnJsonMessage | pythoneer/messages.py:51-103 | role "user"; a tool_result block for the tool id with the chosen observation; a text block with the comment exactly when it is non-empty and included |
| Messages.SummarisedChangesOnlyToolResult | pythoneer/messages.py:75-78 | the summarised flag changes only the tool result's content |
| Messages.OmittedCommentIsNoComment | pythoneer/messages.py:88-94 | leaving the comment out is the same as having none, and so is an empty comment |
| Messages.MessageDeterminesResult | pythoneer/messages.py:80-101 | for any two results, equal messages mean the same tool id, the same chosen observation, both or neither with a non-empty review comment, and then the same comment |
| Trajectories.NewStep | pythoneer/trajectory.py:52-99 | a step from its four required fields has every other field at its default |
| Trajectories.RecordKeys | pythoneer/trajectory.py:47-49 | a record lists every field under its name, in declaration order |
| Trajectories.RecordRoundTrip | pythoneer/trajectory.py:47-49 | a step can be read back from its record |
| Trajectories.RecordsOf | pythoneer/trajectory.py:47-48 | one record per step |
| Trajectories.RecordsOfIndex | pythoneer/trajectory.py:47-48 | the record at index i is that of step i |
| Trajectories.RecordsOfAppend | pythoneer/trajectory.py:47-48 | appending a step appends its record |
| Trajectories.RecordsRoundTrip | pythoneer/trajectory.py:47-49 | the written list loses and reorders no step |
| Trajectories.Trajectory.constructor | pythoneer/trajectory.py:20-21 | a new trajectory has no steps |
| Trajectories.Trajectory.AddStep | pythoneer/trajectory.py:23-32 | the step is appended; earlier steps are unchanged |
| Trajectories.Trajectory.Records | pythoneer/trajectory.py:34-49 | the list written out has one record per step, in the order added, and it gives the steps back |
| Llm.Index | pythoneer/llm.py:36 | list indexing succeeds only in range; otherwise the error Python raises for the value |
| Llm.Field | pythoneer/llm.py:37 | a key lookup succeeds iff the dict has the key; otherwise a KeyError or the type's TypeError |
| Llm.ParseToolUseResponse | pythoneer/llm.py:16-51 | the parse of a tool-use response; the lemmas below state when it succeeds, what it reads and that rendering inverts it |
| Llm.ParseSucceedsIffWellShaped | pythoneer/llm.py:16-51 | parsing succeeds iff stop_reason is "tool_use" and blocks 0 and 1 have text / id, name, input; it reads exactly those |
| Llm.WrongStopReasonRejected | pythoneer/llm.py:30-32 | a missing stop reason is a KeyError; a wrong one is a ValueError naming it |
| Llm.FewerThanTwoBlocksFail | pythoneer/llm.py:34-40 | fewer than two content blocks is an IndexError |
| Llm.LaterBlocksIgnored | pythoneer/llm.py:34-42 | blocks after the second never affect the result |
| Llm.ParseRender | pythoneer/llm.py:16-51 | parsing a rendered tool-use response gives back what was rendered |

## Left out

- Disk, Docker, subprocesses and temporary directories are not modelled.
  - Files read from disk when the codebase is built are given as (path, contents) pairs.
  - The run tools' stdout, stderr and exit status are parameters.
  - `write_codebase_to_disk` is called by the run tools but is not defined in `Codebase`; it is not modelled.
  - `Trajectory.write_to_disk` is modelled as the list of records it dumps. The file and its JSON text are not modelled.
- `CodebaseStore.SourceFile` is a value, not an object. A `SourceFile` handed out by `retrieve_file` does not alias the stored one in the model. `update_contents` on it returns the updated file, which `EditFile` stores back.
- `ToolFactories.ToolFactory`: the registry is a class attribute shared by the whole program. In the model it is an object the caller passes around.
- `lint_code` runs Ruff, which is not modelled. The linter is a function parameter from code to an optional list of messages. `ToolUtils.FormatViolations` models only the formatting of Ruff's parsed output.
- Warnings logged through loguru are returned as a list of strings.
- `script_arguments`: the argument string that run_python_script passes to the script is not modelled, and neither is the command line it builds.
- `os.getuid`/`os.getgid` and the Docker image names are not part of the observations, so they are not modelled.
- `MessageLog` and `AssistantMessage` are empty stubs. They are not modelled.
- run.py and paths.py are not part of this model.
- `Strings.IsWhitespace` is a fixed list of the characters Python's `str.isspace()` accepts; the Unicode database itself is not modelled.
- TypeError messages are those of the Python 3 versions the code targets; other interpreter versions word them differently.
- `Llm.Json`: only the `str()` of a list or dict, which error messages print, is kept per value as text.
- `Trajectories.FromRecord` reads a record by field position, as `asdict` orders it; it is not a general JSON decoder.
- `Trajectories.TrajectoryStep` keeps `tool_arguments` as a plain dict of values, without the well-formedness that tool arguments carry.
- `Tools.Dispatch` models the evident intent of `Tool.use`: validate, then `_use`. As written, `use` reads `self.self`, so it would raise AttributeError.
- `Tools.UseValidated`: each `_use` reads its string arguments, which `Tools.ValidationGivesFacts` guarantees after validation. A tool used without validation is not modelled.
- PathNames.Name: a relative path with no component but "." (such as "" or ".") names the codebase root directory in the source, because `Path.name` is read after joining the path to the codebase root; the model gives "". An absolute relative path, which replaces the root in the join, is not modelled either.
- Strings.Join: only the start of the joined text is stated; `Strings.SplitJoin` is its inverse.

## Findings

| source | as written | input that shows it | evidently intended | confidence | as-written member | corrected member |
|---|---|---|---|---|---|---|
| pythoneer/tools/tools.py:119-137 | `python_file` is assigned only on the `.py` branch. The report then reads it, so any other file raises UnboundLocalError after the edit is stored. | edit_file with open file "notes.txt" | a block marked python for `.py` files and unmarked otherwise | not executed | Tools.EditFileObservationAsWritten, Tools.EditOfTextFileAsWritten | Tools.EditFileObservation, Tools.EditFileObservationShowsContents |
| pythoneer/tools/tools.py:199-218 | the same in create_file: `python_file` is unbound for a non-`.py` path, after the file has been added | create_file with file_path "README.md" | the same | not executed | Tools.CreateFileObservationAsWritten, Tools.CreateOfMarkdownFileAsWritten | Tools.CreateFileObservation, Tools.CreateFileObservationShowsContents |

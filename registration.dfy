/** `register_all_tools` (pythoneer/tools/__init__.py): the six tools are
    registered one after the other. */
module ToolRegistration {
  import opened Common
  import opened ToolBase
  import opened Tools
  import opened ToolFactories

  /** The registry after registering the six tools in the source's order
      into the registry `m`. */
  function AfterRegisterAll(m: map<Option<string>, ToolClass>): map<Option<string>, ToolClass> {
    m[OpenFileClass.name := OpenFileClass]
     [EditFileClass.name := EditFileClass]
     [CreateFileClass.name := CreateFileClass]
     [RunPythonScriptClass.name := RunPythonScriptClass]
     [RunAllTestsClass.name := RunAllTestsClass]
     [CompleteTaskClass.name := CompleteTaskClass]
  }

  /** The names the six classes are filed under. */
  lemma ClassNames()
    ensures OpenFileClass.name == Some("open_file") && EditFileClass.name == Some("edit_file")
    ensures CreateFileClass.name == Some("create_file") && RunPythonScriptClass.name == Some("run_python_script")
    ensures RunAllTestsClass.name == Some("run_all_tests") && CompleteTaskClass.name == Some("complete_task")
  {
  }

  method RegisterAllTools(f: ToolFactory)
    modifies f
    ensures f.toolNameToClass == AfterRegisterAll(old(f.toolNameToClass))
  {
    f.RegisterTool(OpenFileClass);
    f.RegisterTool(EditFileClass);
    f.RegisterTool(CreateFileClass);
    f.RegisterTool(RunPythonScriptClass);
    f.RegisterTool(RunAllTestsClass);
    f.RegisterTool(CompleteTaskClass);
  }

  /** After registration every tool's name leads to its own class, whatever
      the registry held before. */
  lemma {:induction false} EachNameMapsToItsClass(m: map<Option<string>, ToolClass>, kind: ToolKind)
    ensures Some(ToolName(kind)) in AfterRegisterAll(m)
    ensures AfterRegisterAll(m)[Some(ToolName(kind))] == ClassOf(kind)
  {
    ClassNames();
  }

  /** Registering twice leaves the registry as registering once. */
  lemma RegisterAllToolsIdempotent(m: map<Option<string>, ToolClass>)
    ensures AfterRegisterAll(AfterRegisterAll(m)) == AfterRegisterAll(m)
  {
  }

  /** Into an empty registry the six tools go under six distinct names. */
  lemma RegistryFromEmpty()
    ensures AfterRegisterAll(map[]).Keys ==
            {Some("open_file"), Some("edit_file"), Some("create_file"),
             Some("run_python_script"), Some("run_all_tests"), Some("complete_task")}
    ensures |AfterRegisterAll(map[])| == 6
  {
    ClassNames();
  }
}

/** The tool registry (pythoneer/tools/factory.py): tool names to tool
    classes, and creation of a tool by name. */
module ToolFactories {
  import opened Common
  import opened Dicts
  import opened ToolBase

  function UnknownToolMessage(toolName: string): string {
    "Unknown tool: " + toolName
  }

  /** The registry. In the source it is a class attribute shared by the whole
      program; here it is one object that the caller passes around. */
  class ToolFactory {
    /** `NAME` -> tool class; a class whose `NAME` is None is filed under None. */
    var toolNameToClass: map<Option<string>, ToolClass>

    constructor ()
      ensures toolNameToClass == map[]
    {
      toolNameToClass := map[];
    }

    /** Files `cls` under its `NAME`, replacing any class filed there before;
        every other entry stays. */
    method RegisterTool(cls: ToolClass)
      modifies this
      ensures toolNameToClass == old(toolNameToClass)[cls.name := cls]
      ensures forall n | n in old(toolNameToClass) && n != cls.name :: toolNameToClass[n] == old(toolNameToClass)[n]
      ensures toolNameToClass.Keys == old(toolNameToClass).Keys + {cls.name}
    {
      toolNameToClass := toolNameToClass[cls.name := cls];
    }

    /** An instance of the class registered under `toolName`, holding
        `arguments` verbatim; an unregistered name is a ValueError, and a
        registered class that cannot be instantiated fails as `Construct` does. */
    function CreateTool(toolName: string, arguments: Arguments): (r: Result<Tool>)
      reads this
      ensures Some(toolName) !in toolNameToClass ==> r == Failure(ValueError(UnknownToolMessage(toolName)))
      ensures Some(toolName) in toolNameToClass ==> r == Construct(toolNameToClass[Some(toolName)], arguments)
      ensures r.Success? ==>
                && Some(toolName) in toolNameToClass
                && var cls := toolNameToClass[Some(toolName)];
                && r.value.arguments == arguments
                && r.value.className == cls.className && Some(r.value.kind) == cls.kind
                && Some(r.value.name) == cls.name && Some(r.value.description) == cls.description
                && Some(r.value.parameters) == cls.parameters
      ensures Some(toolName) in toolNameToClass ==>
                (r.Success? <==> var cls := toolNameToClass[Some(toolName)];
                                 cls.kind.Some? && cls.name.Some? && cls.description.Some? && cls.parameters.Some?)
    {
      if Some(toolName) !in toolNameToClass then Failure(ValueError(UnknownToolMessage(toolName)))
      else Construct(toolNameToClass[Some(toolName)], arguments)
    }
  }
}

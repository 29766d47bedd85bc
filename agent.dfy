/** The coding agent's state (pythoneer/agent.py). */
module Agents {
  import opened Common
  import CodebaseStore

  class Agent {
    /** The codebase being worked on; the agent never replaces it. */
    const codebase: CodebaseStore.Codebase
    var stepNumber: int
    /** The file shown in the file viewer, if any. */
    var openFileRelativePath: Option<string>
    /** Set by the complete_task tool. */
    var taskCompleted: bool

    ghost predicate Valid()
      reads this, codebase
    {
      codebase.Valid()
    }

    /** A fresh agent over the files found under the codebase root, given as
        (relative path, contents) pairs: step 0, no file open, task not done. */
    constructor (initial: seq<(string, string)>)
      requires CodebaseStore.DistinctPaths(initial)
      ensures Valid() && fresh(codebase)
      ensures |codebase.order| == |initial| && forall i :: 0 <= i < |initial| ==> codebase.order[i] == initial[i].0
      ensures forall i :: 0 <= i < |initial| ==>
                codebase.files[initial[i].0] == CodebaseStore.NewSourceFile(initial[i].0, initial[i].1)
      ensures stepNumber == 0
      ensures openFileRelativePath == None
      ensures !taskCompleted
    {
      codebase := new CodebaseStore.Codebase(initial);
      stepNumber := 0;
      openFileRelativePath := None;
      taskCompleted := false;
    }

    /** The agent's step is still a stub: it changes nothing. */
    method Step()
      ensures stepNumber == old(stepNumber) && openFileRelativePath == old(openFileRelativePath)
      ensures taskCompleted == old(taskCompleted) && unchanged(codebase)
    {
    }
  }
}

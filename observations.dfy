/** The record every tool returns (pythoneer/tools/observations.py). */
module Observations {
  import opened Common

  /** What a tool reports back: a full and a summarised description, optional
      terminal output, an optional new file-viewer content and an optional
      review comment. The defaults are those of the Python constructor. */
  datatype Observation = Observation(
    observationDescription: string,
    summarisedObservationDescription: string,
    terminalOutput: bool := false,
    terminalContent: Option<string> := None,
    fileViewerChanged: bool := false,
    fileViewerNewContent: Option<string> := None,
    reviewComment: Option<string> := None
  )

  /** `Observation(description, summary)` with every optional argument omitted. */
  function NewObservation(description: string, summary: string): (o: Observation)
    ensures o.observationDescription == description
    ensures o.summarisedObservationDescription == summary
    ensures !o.terminalOutput && o.terminalContent == None
    ensures !o.fileViewerChanged && o.fileViewerNewContent == None
    ensures o.reviewComment == None
  {
    Observation(description, summary)
  }
}

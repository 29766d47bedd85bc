/** The agent's trajectory (pythoneer/trajectory.py): the steps it took, kept
    in order and written out as a list of records. */
module Trajectories {
  import opened Common
  import opened Dicts

  /** One step: what the agent thought, which tool it used with which
      arguments, and what the terminal and the file viewer showed after it.
      The defaults are those of the dataclass. */
  datatype TrajectoryStep = TrajectoryStep(
    stepNumber: int,
    thought: string,
    toolName: string,
    toolArguments: Dict<Value>,
    terminalOutput: bool := false,
    terminalContent: Option<string> := None,
    fileViewerChanged: bool := false,
    openFileName: Option<string> := None,
    fileViewerContent: Option<string> := None,
    reviewComment: Option<string> := None
  )

  /** A step given only its four required fields. */
  function NewStep(stepNumber: int, thought: string, toolName: string, toolArguments: Dict<Value>): (s: TrajectoryStep)
    ensures s.stepNumber == stepNumber && s.thought == thought
    ensures s.toolName == toolName && s.toolArguments == toolArguments
    ensures !s.terminalOutput && !s.fileViewerChanged
    ensures s.terminalContent == None && s.openFileName == None
    ensures s.fileViewerContent == None && s.reviewComment == None
  {
    TrajectoryStep(stepNumber, thought, toolName, toolArguments)
  }

  /** A value of a serialised record, as `json.dump` sees it. */
  datatype Field =
    | IntField(i: int)
    | StrField(s: string)
    | BoolField(b: bool)
    | NullField
    | DictField(d: Dict<Value>)

  /** What `dataclasses.asdict` gives: the fields in declaration order. */
  type Record = seq<(string, Field)>

  /** The field names of a step, in declaration order. */
  const FieldNames: seq<string> := [
    "step_number", "thought", "tool_name", "tool_arguments", "terminal_output",
    "terminal_content", "file_viewer_changed", "open_file_name", "file_viewer_content", "review_comment"
  ]

  /** The record with the given values under the field names, in order. */
  function Named(values: seq<Field>): Record
    requires |values| == 10
  {
    seq(10, i requires 0 <= i < 10 => (FieldNames[i], values[i]))
  }

  function OptionalField(o: Option<string>): Field {
    match o
    case Some(s) => StrField(s)
    case None => NullField
  }

  /** The values of a step's fields, in declaration order. */
  function FieldValues(s: TrajectoryStep): seq<Field> {
    [IntField(s.stepNumber), StrField(s.thought), StrField(s.toolName), DictField(s.toolArguments),
     BoolField(s.terminalOutput), OptionalField(s.terminalContent), BoolField(s.fileViewerChanged),
     OptionalField(s.openFileName), OptionalField(s.fileViewerContent), OptionalField(s.reviewComment)]
  }

  /** `asdict(step)` */
  function ToRecord(s: TrajectoryStep): Record {
    Named(FieldValues(s))
  }

  /** A record lists every field of the step under its name, in declaration order. */
  lemma RecordKeys(s: TrajectoryStep)
    ensures |ToRecord(s)| == |FieldNames|
    ensures forall i :: 0 <= i < |FieldNames| ==> ToRecord(s)[i] == (FieldNames[i], FieldValues(s)[i])
  {
  }

  function ReadOptional(f: Field): Option<Option<string>> {
    match f
    case StrField(s) => Some(Some(s))
    case NullField => Some(None)
    case _ => None
  }

  /** Reads a step back from a record with a value of the right kind at each
      field's position; any other record gives None. */
  function FromRecord(r: Record): Option<TrajectoryStep> {
    if |r| != 10 then None
    else if !(r[0].1.IntField? && r[1].1.StrField? && r[2].1.StrField? && r[3].1.DictField?
              && r[4].1.BoolField? && r[6].1.BoolField?) then None
    else
      var terminalContent := ReadOptional(r[5].1);
      var openFileName := ReadOptional(r[7].1);
      var fileViewerContent := ReadOptional(r[8].1);
      var reviewComment := ReadOptional(r[9].1);
      if terminalContent.None? || openFileName.None? || fileViewerContent.None? || reviewComment.None? then None
      else Some(TrajectoryStep(r[0].1.i, r[1].1.s, r[2].1.s, r[3].1.d, r[4].1.b, terminalContent.value,
                               r[6].1.b, openFileName.value, fileViewerContent.value, reviewComment.value))
  }

  /** A record keeps every field of its step. */
  lemma RecordRoundTrip(s: TrajectoryStep)
    ensures FromRecord(ToRecord(s)) == Some(s)
  {
    var r := ToRecord(s);
    var values := FieldValues(s);
    assert forall k :: 0 <= k < 10 ==> r[k].1 == values[k];
    assert ReadOptional(OptionalField(s.terminalContent)) == Some(s.terminalContent);
    assert ReadOptional(OptionalField(s.openFileName)) == Some(s.openFileName);
    assert ReadOptional(OptionalField(s.fileViewerContent)) == Some(s.fileViewerContent);
    assert ReadOptional(OptionalField(s.reviewComment)) == Some(s.reviewComment);
  }

  /** `[asdict(step) for step in steps]` */
  function RecordsOf(steps: seq<TrajectoryStep>): (rs: seq<Record>)
    ensures |rs| == |steps|
  {
    if steps == [] then [] else [ToRecord(steps[0])] + RecordsOf(steps[1..])
  }

  /** The serialised list has the record of each step at that step's index. */
  lemma {:induction false} RecordsOfIndex(steps: seq<TrajectoryStep>, i: nat)
    requires i < |steps|
    ensures RecordsOf(steps)[i] == ToRecord(steps[i])
  {
    if i > 0 {
      RecordsOfIndex(steps[1..], i - 1);
    }
  }

  /** Appending a step appends its record. */
  lemma {:induction false} RecordsOfAppend(steps: seq<TrajectoryStep>, s: TrajectoryStep)
    ensures RecordsOf(steps + [s]) == RecordsOf(steps) + [ToRecord(s)]
  {
    if steps != [] {
      assert (steps + [s])[1..] == steps[1..] + [s];
      RecordsOfAppend(steps[1..], s);
    }
  }

  /** Reads the steps back from a list of records; None if any record does not
      have the layout of a step. */
  function StepsOf(rs: seq<Record>): Option<seq<TrajectoryStep>> {
    if rs == [] then Some([])
    else match (FromRecord(rs[0]), StepsOf(rs[1..]))
         case (Some(s), Some(rest)) => Some([s] + rest)
         case _ => None
  }

  /** The serialised list loses no step and reorders none. */
  lemma {:induction false} RecordsRoundTrip(steps: seq<TrajectoryStep>)
    ensures StepsOf(RecordsOf(steps)) == Some(steps)
  {
    if steps != [] {
      RecordRoundTrip(steps[0]);
      RecordsRoundTrip(steps[1..]);
      assert RecordsOf(steps)[1..] == RecordsOf(steps[1..]);
      assert [steps[0]] + steps[1..] == steps;
    }
  }

  class Trajectory {
    /** The steps, oldest first. */
    var steps: seq<TrajectoryStep>

    /** A new trajectory has no steps. */
    constructor ()
      ensures steps == []
    {
      steps := [];
    }

    /** Appends `step` at the end; earlier steps are unchanged. */
    method AddStep(step: TrajectoryStep)
      modifies this
      ensures steps == old(steps) + [step]
      ensures |steps| == |old(steps)| + 1 && steps[..|old(steps)|] == old(steps)
    {
      steps := steps + [step];
    }

    /** The list `write_to_disk` hands to `json.dump`: one record per step,
        in the order the steps were added. */
    function Records(): (rs: seq<Record>)
      reads this
      ensures |rs| == |steps|
      ensures forall i :: 0 <= i < |steps| ==> rs[i] == ToRecord(steps[i])
      ensures StepsOf(rs) == Some(steps)
    {
      var rs := RecordsOf(steps);
      forall i | 0 <= i < |steps| ensures rs[i] == ToRecord(steps[i]) {
        RecordsOfIndex(steps, i);
      }
      RecordsRoundTrip(steps);
      rs
    }
  }
}

/**
 * The operator-graph node ("lop") and its execution-properties object, as
 * far as the central-moment lop uses them.  A lop lists its inputs in order
 * (position encodes operand role) and its consumers; adding an input never
 * updates the input's consumer list by itself, so the operator wires both
 * directions explicitly.
 */
module Lops {
  import opened LopTypes

  /** A snapshot of a properties object. */
  datatype Properties = Properties(
    execType: ExecType,
    execLocation: ExecLocation,
    breaksAlignment: bool,
    isAligner: bool,
    definesMRJob: bool,
    compatibleJobs: set<JobType>)

  /** The state of a properties object before any lop sets it. */
  const Unset: Properties :=
    Properties(ExecType.Invalid, ExecLocation.Invalid, false, false, false, {})

  /** Backend and phase agree, and only distributed lops define a job. */
  predicate Consistent(p: Properties)
  {
    (p.execType == ExecType.MR ==> p.execLocation != ExecLocation.ControlProgram) &&
    (p.execType != ExecType.MR ==>
      p.execLocation !in {ExecLocation.Map, ExecLocation.Reduce, ExecLocation.MapAndReduce}) &&
    (p.definesMRJob ==> p.execType == ExecType.MR)
  }

  class LopProperties {
    var execType: ExecType
    var execLocation: ExecLocation
    var breaksAlignment: bool
    var isAligner: bool
    var definesMRJob: bool
    var compatibleJobs: set<JobType>

    function Snapshot(): Properties
      reads this
    {
      Properties(execType, execLocation, breaksAlignment, isAligner, definesMRJob, compatibleJobs)
    }

    constructor ()
      ensures Snapshot() == Unset
    {
      execType, execLocation := ExecType.Invalid, ExecLocation.Invalid;
      breaksAlignment, isAligner, definesMRJob := false, false, false;
      compatibleJobs := {};
    }

    /** Declares one more distributed-job template this lop can be folded into. */
    method AddCompatibility(jt: JobType)
      modifies this
      ensures Snapshot() == old(Snapshot()).(compatibleJobs := old(compatibleJobs) + {jt})
    {
      compatibleJobs := compatibleJobs + {jt};
    }

    /** Fixes backend, phase and the three scheduling flags; the template set is kept. */
    method SetProperties(et: ExecType, el: ExecLocation, breaks: bool, aligner: bool, definesJob: bool)
      modifies this
      ensures Snapshot() == Properties(et, el, breaks, aligner, definesJob, old(compatibleJobs))
    {
      execType, execLocation := et, el;
      breaksAlignment, isAligner, definesMRJob := breaks, aligner, definesJob;
    }
  }

  class Lop {
    const kind: LopType
    const dataType: DataType
    const valueType: ValueType
    /** Meaningful for Data lops: the lop carries a compile-time literal. */
    const isLiteral: bool
    const lps: LopProperties
    /** The label of the lop's output parameters. */
    var outputLabel: string
    var inputs: seq<Lop>
    var outputs: seq<Lop>

    /** The base constructor: no inputs, no consumers, properties unset. */
    constructor (kind: LopType, dt: DataType, vt: ValueType)
      ensures this.kind == kind && dataType == dt && valueType == vt && !isLiteral
      ensures outputLabel == "" && inputs == [] && outputs == []
      ensures fresh(lps) && lps.Snapshot() == Unset
    {
      this.kind, dataType, valueType, isLiteral := kind, dt, vt, false;
      lps := new LopProperties();
      outputLabel, inputs, outputs := "", [], [];
    }

    /** A data source labelled `name`, possibly a literal. */
    constructor Data(name: string, literal: bool, dt: DataType, vt: ValueType, et: ExecType)
      ensures kind == LopType.Data && dataType == dt && valueType == vt && isLiteral == literal
      ensures outputLabel == name && inputs == [] && outputs == []
      ensures fresh(lps)
      ensures lps.Snapshot() == Properties(et, ExecLocation.Data, false, false, false, {})
    {
      kind, dataType, valueType, isLiteral := LopType.Data, dt, vt, literal;
      lps := new LopProperties();
      outputLabel, inputs, outputs := name, [], [];
      new;
      lps.SetProperties(et, ExecLocation.Data, false, false, false);
    }

    method AddInput(n: Lop)
      modifies this`inputs
      ensures inputs == old(inputs) + [n]
    {
      inputs := inputs + [n];
    }

    method AddOutput(n: Lop)
      modifies this`outputs
      ensures outputs == old(outputs) + [n]
    {
      outputs := outputs + [n];
    }
  }
}

/**
 * The closed vocabularies a physical operator (a "lop") is described with:
 * the kind of data and of value it produces, the backend it runs on, the
 * phase of a distributed job it occupies, and the distributed-job templates
 * it may be folded into.  Only the values the central-moment lop touches,
 * plus a few representatives, are listed; how each value is spelled in
 * instruction text is not fixed here (see Instructions.Format).
 */
module LopTypes {

  /** Kind of a result: a scalar, a matrix, ... */
  datatype DataType = Scalar | Matrix | Unknown

  /** Kind of the values inside a result. */
  datatype ValueType = Int | Double | Boolean | String | Unknown

  /** Backend: the distributed map/reduce backend, the in-process control program, or not yet decided. */
  datatype ExecType = MR | CP | Invalid

  /** Phase of a distributed job a lop runs in; ControlProgram for in-process lops, Data for sources. */
  datatype ExecLocation = Invalid | Map | Reduce | MapAndReduce | ControlProgram | Data

  /** Distributed-job templates; Invalid is the sentinel "no distributed template applies". */
  datatype JobType = CmCov | Invalid

  /** Operator kind of a lop (a closed tag instead of a class hierarchy). */
  datatype LopType = Data | CentralMoment | Other
}

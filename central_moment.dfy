/**
 * The central-moment lop: construction (wiring into the operator graph and
 * fixing execution properties by backend) and its three instruction
 * emitters.  Inputs are, in order, the data, the order of the moment
 * (0, 2, 3 or 4) and, in the control program only, optional weights.
 */
module CentralMomentLop {
  import opened LopTypes
  import opened Instructions
  import opened Lops

  const Opcode: string := "cm"

  /** A Java `int`. */
  newtype int32 = x: int | -0x8000_0000 <= x < 0x8000_0000

  // ---------------------------------------------------------------- construction

  /** The inputs a central-moment lop is given: weights only off the distributed backend. */
  function Attached(input1: Lop, input2: Lop, input3: Lop?, et: ExecType): (r: seq<Lop>)
    ensures 2 <= |r| <= 3 && r[0] == input1 && r[1] == input2
    ensures |r| == 3 <==> et != ExecType.MR && input3 != null
    ensures |r| == 3 ==> r[2] == input3
  {
    if et != ExecType.MR && input3 != null then [input1, input2, input3] else [input1, input2]
  }

  /** The distributed-job template the lop declares. */
  function Compatibility(et: ExecType): (jt: JobType)
    ensures jt == JobType.CmCov <==> et == ExecType.MR
  {
    if et == ExecType.MR then JobType.CmCov else JobType.Invalid
  }

  /** The properties a freshly built central-moment lop ends with, for backend `et`. */
  function CmProperties(et: ExecType): (p: Properties)
    ensures Consistent(p)
    ensures p.execType == et && !p.breaksAlignment && !p.isAligner
    ensures et == ExecType.MR ==>
      p.execLocation == ExecLocation.MapAndReduce && p.definesMRJob && p.compatibleJobs == {JobType.CmCov}
    ensures et != ExecType.MR ==>
      p.execLocation == ExecLocation.ControlProgram && !p.definesMRJob && p.compatibleJobs == {JobType.Invalid}
  {
    if et == ExecType.MR then
      Properties(et, ExecLocation.MapAndReduce, false, false, true, {Compatibility(et)})
    else
      Properties(et, ExecLocation.ControlProgram, false, false, false, {Compatibility(et)})
  }

  /** `k` entries, each `cm`. */
  function Copies(cm: Lop, k: nat): (r: seq<Lop>)
    ensures |r| == k
    ensures forall e | e in r :: e == cm
  {
    if k == 0 then [] else Copies(cm, k - 1) + [cm]
  }

  /** How often `n` occurs in `s`. */
  function Count(n: Lop?, s: seq<Lop>): nat
  {
    if s == [] then 0 else Count(n, s[..|s| - 1]) + (if s[|s| - 1] == n then 1 else 0)
  }

  lemma CountSnoc(n: Lop?, s: seq<Lop>, x: Lop)
    ensures Count(n, s + [x]) == Count(n, s) + (if x == n then 1 else 0)
  {
  }

  lemma CountTwo(n: Lop?, a: Lop, b: Lop)
    ensures Count(n, [a, b]) == (if a == n then 1 else 0) + (if b == n then 1 else 0)
  {
    assert [a][..0] == [];
    assert Count(n, [a]) == if a == n then 1 else 0;
    assert [a, b][..1] == [a];
  }

  lemma CountThree(n: Lop?, a: Lop, b: Lop, c: Lop)
    ensures Count(n, [a, b, c]) == (if a == n then 1 else 0) + (if b == n then 1 else 0) + (if c == n then 1 else 0)
  {
    assert [a, b, c][..2] == [a, b];
    CountTwo(n, a, b);
  }

  /** Appending `cm` to a list that has gained `k` copies of it gives `k + 1` copies. */
  lemma AppendCopy(before: seq<Lop>, cm: Lop, k: nat)
    ensures before + Copies(cm, k) + [cm] == before + Copies(cm, k + 1)
  {
  }

  /** `n` has gained `k` trailing consumer entries, all `cm`, and is otherwise unchanged. */
  twostate predicate GainedConsumer(n: Lop, new cm: Lop, k: nat)
    reads n
  {
    n.outputs == old(n.outputs) + Copies(cm, k) &&
    n.inputs == old(n.inputs) && n.outputLabel == old(n.outputLabel)
  }

  /** The whole state a central-moment constructor leaves behind. */
  twostate predicate Constructed(new cm: Lop, input1: Lop, input2: Lop, input3: Lop?,
                                 dt: DataType, vt: ValueType, et: ExecType)
    reads cm, cm.lps, input1, input2, input3
  {
    var attached := Attached(input1, input2, input3, et);
    cm.kind == LopType.CentralMoment && cm.dataType == dt && cm.valueType == vt && !cm.isLiteral &&
    cm.inputs == attached && cm.outputs == [] && cm.outputLabel == "" &&
    cm.lps.Snapshot() == CmProperties(et) &&
    GainedConsumer(input1, cm, Count(input1, attached)) &&
    GainedConsumer(input2, cm, Count(input2, attached)) &&
    (input3 != null ==> GainedConsumer(input3, cm, Count(input3, attached)))
  }

  /** Makes `input1` and `input2` the first two inputs of `cm`, and `cm` a consumer of each. */
  method ConnectDataAndOrder(cm: Lop, input1: Lop, input2: Lop, input3: Lop?)
    requires cm != input1 && cm != input2 && cm != input3
    modifies cm`inputs, input1`outputs, input2`outputs
    ensures cm.inputs == old(cm.inputs) + [input1, input2]
    ensures GainedConsumer(input1, cm, Count(input1, [input1, input2]))
    ensures GainedConsumer(input2, cm, Count(input2, [input1, input2]))
    ensures input3 != null ==> GainedConsumer(input3, cm, Count(input3, [input1, input2]))
  {
    cm.AddInput(input1);
    cm.AddInput(input2);
    input1.AddOutput(cm);
    input2.AddOutput(cm);
    CountTwo(input1, input1, input2);
    CountTwo(input2, input1, input2);
    CountTwo(input3, input1, input2);
    assert Copies(cm, 1) == [cm] && Copies(cm, 2) == [cm, cm];
  }

  /**
   * Wires `cm` below its inputs and sets its properties.  Under MR a third
   * input is ignored without any error.
   */
  method Init(cm: Lop, input1: Lop, input2: Lop, input3: Lop?, et: ExecType)
    requires cm != input1 && cm != input2 && cm != input3
    modifies cm`inputs, cm.lps, input1`outputs, input2`outputs, input3
    ensures cm.inputs == old(cm.inputs) + Attached(input1, input2, input3, et)
    ensures cm.lps.execType == et && !cm.lps.breaksAlignment && !cm.lps.isAligner
    ensures cm.lps.execLocation == CmProperties(et).execLocation
    ensures cm.lps.definesMRJob == CmProperties(et).definesMRJob
    ensures cm.lps.compatibleJobs == old(cm.lps.compatibleJobs) + {Compatibility(et)}
    ensures GainedConsumer(input1, cm, Count(input1, Attached(input1, input2, input3, et)))
    ensures GainedConsumer(input2, cm, Count(input2, Attached(input1, input2, input3, et)))
    ensures input3 != null ==>
      GainedConsumer(input3, cm, Count(input3, Attached(input1, input2, input3, et)))
  {
    ConnectDataAndOrder(cm, input1, input2, input3);
    var breaksAlignment, aligner, definesMRJob := false, false, false;
    if et == ExecType.MR {
      definesMRJob := true;
      cm.lps.AddCompatibility(JobType.CmCov);
      cm.lps.SetProperties(et, ExecLocation.MapAndReduce, breaksAlignment, aligner, definesMRJob);
    } else {
      // in the control program a third input (the weights) is optional
      if input3 != null {
        cm.AddInput(input3);
        input3.AddOutput(cm);
        assert [input1, input2] + [input3] == [input1, input2, input3];
        CountSnoc(input1, [input1, input2], input3);
        CountSnoc(input2, [input1, input2], input3);
        CountSnoc(input3, [input1, input2], input3);
        AppendCopy(old(input3.outputs), cm, Count(input3, [input1, input2]));
      }
      cm.lps.AddCompatibility(JobType.Invalid);
      cm.lps.SetProperties(et, ExecLocation.ControlProgram, breaksAlignment, aligner, definesMRJob);
    }
  }

  /** The full constructor: data, order, optional weights, result types and backend. */
  method Create(input1: Lop, input2: Lop, input3: Lop?, dt: DataType, vt: ValueType, et: ExecType)
    returns (cm: Lop)
    modifies input1`outputs, input2`outputs, input3
    ensures fresh(cm) && fresh(cm.lps)
    ensures Constructed(cm, input1, input2, input3, dt, vt, et)
  {
    cm := new Lop(LopType.CentralMoment, dt, vt);
    Init(cm, input1, input2, input3, et);
  }

  /** Data and order only, on the distributed backend. */
  method CreateDefault(input1: Lop, input2: Lop, dt: DataType, vt: ValueType) returns (cm: Lop)
    modifies input1`outputs, input2`outputs
    ensures fresh(cm) && fresh(cm.lps)
    ensures Constructed(cm, input1, input2, null, dt, vt, ExecType.MR)
  {
    cm := Create(input1, input2, null, dt, vt, ExecType.MR);
  }

  /** Data and order only, on backend `et`. */
  method CreateWithExecType(input1: Lop, input2: Lop, dt: DataType, vt: ValueType, et: ExecType)
    returns (cm: Lop)
    modifies input1`outputs, input2`outputs
    ensures fresh(cm) && fresh(cm.lps)
    ensures Constructed(cm, input1, input2, null, dt, vt, et)
  {
    cm := Create(input1, input2, null, dt, vt, et);
  }

  /** Data, order and weights, on the distributed backend, which then drops the weights. */
  method CreateWeighted(input1: Lop, input2: Lop, input3: Lop?, dt: DataType, vt: ValueType)
    returns (cm: Lop)
    modifies input1`outputs, input2`outputs, input3
    ensures fresh(cm) && fresh(cm.lps)
    ensures Constructed(cm, input1, input2, input3, dt, vt, ExecType.MR)
  {
    cm := Create(input1, input2, input3, dt, vt, ExecType.MR);
  }

  lemma DistinctInputsConnectOnce(input1: Lop, input2: Lop, input3: Lop, et: ExecType)
    requires input1 != input2 && input1 != input3 && input2 != input3
    ensures Count(input1, Attached(input1, input2, input3, et)) == 1
    ensures Count(input2, Attached(input1, input2, input3, et)) == 1
    ensures Count(input3, Attached(input1, input2, input3, et)) == if et == ExecType.MR then 0 else 1
  {
    if et == ExecType.MR {
      CountTwo(input1, input1, input2);
      CountTwo(input2, input1, input2);
      CountTwo(input3, input1, input2);
    } else {
      CountThree(input1, input1, input2, input3);
      CountThree(input2, input1, input2, input3);
      CountThree(input3, input1, input2, input3);
    }
  }

  // ---------------------------------------------------------------- emission

  /** The exec-type tag the lop's instructions start with. */
  function ExecTag(fmt: Format, cm: Lop): string
    reads cm.lps
  {
    fmt.execTypeName(cm.lps.execType)
  }

  /** Four operands: data and second operand typed as the first two inputs, third forced SCALAR/INT. */
  function GetInstructions4(fmt: Format, cm: Lop, input1: string, input2: string, input3: string,
                            output: string): (r: string)
    requires |cm.inputs| >= 2
    reads cm, cm.lps
    ensures r == Render(fmt, Instruction(ExecTag(fmt, cm), Opcode, [
      TypedOperand(fmt, input1, cm.inputs[0].dataType, cm.inputs[0].valueType),
      TypedOperand(fmt, input2, cm.inputs[1].dataType, cm.inputs[1].valueType),
      TypedOperand(fmt, input3, DataType.Scalar, ValueType.Int),
      TypedOperand(fmt, output, cm.dataType, cm.valueType)]))
  {
    RenderFour(fmt, ExecTag(fmt, cm), Opcode,
      TypedOperand(fmt, input1, cm.inputs[0].dataType, cm.inputs[0].valueType),
      TypedOperand(fmt, input2, cm.inputs[1].dataType, cm.inputs[1].valueType),
      TypedOperand(fmt, input3, DataType.Scalar, ValueType.Int),
      TypedOperand(fmt, output, cm.dataType, cm.valueType));
    var d, dp, vp := fmt.operandDelimiter, fmt.dataTypePrefix, fmt.valueTypePrefix;
    var opString := fmt.execTypeName(cm.lps.execType) + d + Opcode;
    var data := input1 + dp + fmt.dataTypeName(cm.inputs[0].dataType) + vp + fmt.valueTypeName(cm.inputs[0].valueType);
    var second := input2 + dp + fmt.dataTypeName(cm.inputs[1].dataType) + vp + fmt.valueTypeName(cm.inputs[1].valueType);
    var third := input3 + dp + fmt.dataTypeName(DataType.Scalar) + vp + fmt.valueTypeName(ValueType.Int);
    var result := output + dp + fmt.dataTypeName(cm.dataType) + vp + fmt.valueTypeName(cm.valueType);
    opString + d + data + d + second + d + third + d + result
  }

  /** Data, order and output; the order is always tagged SCALAR/INT, whatever its input declares. */
  function GetInstructions3(fmt: Format, cm: Lop, input1: string, input2: string, output: string): (r: string)
    requires |cm.inputs| >= 1
    reads cm, cm.lps
    ensures r == Render(fmt, Instruction(ExecTag(fmt, cm), Opcode, [
      TypedOperand(fmt, input1, cm.inputs[0].dataType, cm.inputs[0].valueType),
      TypedOperand(fmt, input2, DataType.Scalar, ValueType.Int),
      TypedOperand(fmt, output, cm.dataType, cm.valueType)]))
  {
    RenderThree(fmt, ExecTag(fmt, cm), Opcode,
      TypedOperand(fmt, input1, cm.inputs[0].dataType, cm.inputs[0].valueType),
      TypedOperand(fmt, input2, DataType.Scalar, ValueType.Int),
      TypedOperand(fmt, output, cm.dataType, cm.valueType));
    var d, dp, vp := fmt.operandDelimiter, fmt.dataTypePrefix, fmt.valueTypePrefix;
    var opString := fmt.execTypeName(cm.lps.execType) + d + Opcode;
    var data := input1 + dp + fmt.dataTypeName(cm.inputs[0].dataType) + vp + fmt.valueTypeName(cm.inputs[0].valueType);
    var order := input2 + dp + fmt.dataTypeName(DataType.Scalar) + vp + fmt.valueTypeName(ValueType.Int);
    var result := output + dp + fmt.dataTypeName(cm.dataType) + vp + fmt.valueTypeName(cm.valueType);
    opString + d + data + d + order + d + result
  }

  /** The order input is a Data lop carrying a compile-time literal. */
  predicate OrderIsLiteral(cm: Lop)
    requires |cm.inputs| >= 2
    reads cm, cm.inputs[1].lps
  {
    cm.inputs[1].lps.execLocation == ExecLocation.Data && cm.inputs[1].isLiteral
  }

  /** An order input located at Data is a Data lop, so reading its literal flag is well defined. */
  predicate OrderCastSafe(cm: Lop)
    requires |cm.inputs| >= 2
    reads cm, cm.inputs[1].lps
  {
    cm.inputs[1].lps.execLocation == ExecLocation.Data ==> cm.inputs[1].kind == LopType.Data
  }

  /** The order operand's text: a literal's label as it is, anything else deferred to run time. */
  function OrderField(cm: Lop): (r: string)
    requires |cm.inputs| >= 2 && OrderCastSafe(cm)
    reads cm, cm.inputs[1], cm.inputs[1].lps
    ensures OrderIsLiteral(cm) ==> r == cm.inputs[1].outputLabel
    ensures !OrderIsLiteral(cm) ==> IsDeferred(r) && Unmark(r) == cm.inputs[1].outputLabel
    ensures !IsDeferred(cm.inputs[1].outputLabel) ==> (IsDeferred(r) <==> !OrderIsLiteral(cm))
  {
    var order := cm.inputs[1].outputLabel;
    if OrderIsLiteral(cm) then order
    else DeferredIsMarked(order); Deferred(order)
  }

  /** Operands bound by index: data and output are the decimal indices, the order as OrderField. */
  function GetInstructionsIndexed(fmt: Format, cm: Lop, inputIndex: int32, outputIndex: int32): (r: string)
    requires |cm.inputs| >= 2 && OrderCastSafe(cm)
    reads cm, cm.lps, cm.inputs[1], cm.inputs[1].lps
    ensures r == Render(fmt, Instruction(ExecTag(fmt, cm), Opcode, [
      TypedOperand(fmt, Decimal(inputIndex as int), cm.inputs[0].dataType, cm.inputs[0].valueType),
      TypedOperand(fmt, OrderField(cm), DataType.Scalar, ValueType.Int),
      TypedOperand(fmt, Decimal(outputIndex as int), cm.dataType, cm.valueType)]))
  {
    GetInstructions3(fmt, cm, Decimal(inputIndex as int), OrderField(cm), Decimal(outputIndex as int))
  }

  // ---------------------------------------------------------------- reading back

  /** Instructions in `fmt` can be split positionally, and no enumeration spelling or the opcode gets in the way. */
  predicate Readable(fmt: Format)
  {
    Parsable(fmt) && CleanNames(fmt) && Clean(fmt, Opcode)
  }

  /** No delimiter is a digit, a minus sign or the deferred-marker character. */
  predicate IndexSafe(fmt: Format)
    requires Parsable(fmt)
  {
    forall c | c in FieldSeps(fmt) + TypeSeps(fmt) :: !('0' <= c <= '9') && c != '-' && c != '#'
  }

  lemma ReadGetInstructions4(fmt: Format, cm: Lop, input1: string, input2: string, input3: string,
                             output: string)
    requires |cm.inputs| >= 2 && Readable(fmt)
    requires Clean(fmt, input1) && Clean(fmt, input2) && Clean(fmt, input3) && Clean(fmt, output)
    ensures Parse(fmt, GetInstructions4(fmt, cm, input1, input2, input3, output))
         == Some(Instruction(fmt.execTypeName(cm.lps.execType), Opcode, [
              TypedOperand(fmt, input1, cm.inputs[0].dataType, cm.inputs[0].valueType),
              TypedOperand(fmt, input2, cm.inputs[1].dataType, cm.inputs[1].valueType),
              TypedOperand(fmt, input3, DataType.Scalar, ValueType.Int),
              TypedOperand(fmt, output, cm.dataType, cm.valueType)]))
  {
    ParseRender(fmt, Instruction(ExecTag(fmt, cm), Opcode, [
      TypedOperand(fmt, input1, cm.inputs[0].dataType, cm.inputs[0].valueType),
      TypedOperand(fmt, input2, cm.inputs[1].dataType, cm.inputs[1].valueType),
      TypedOperand(fmt, input3, DataType.Scalar, ValueType.Int),
      TypedOperand(fmt, output, cm.dataType, cm.valueType)]));
  }

  lemma ReadGetInstructions3(fmt: Format, cm: Lop, input1: string, input2: string, output: string)
    requires |cm.inputs| >= 1 && Readable(fmt)
    requires Clean(fmt, input1) && Clean(fmt, input2) && Clean(fmt, output)
    ensures Parse(fmt, GetInstructions3(fmt, cm, input1, input2, output))
         == Some(Instruction(fmt.execTypeName(cm.lps.execType), Opcode, [
              TypedOperand(fmt, input1, cm.inputs[0].dataType, cm.inputs[0].valueType),
              TypedOperand(fmt, input2, DataType.Scalar, ValueType.Int),
              TypedOperand(fmt, output, cm.dataType, cm.valueType)]))
  {
    ParseRender(fmt, Instruction(ExecTag(fmt, cm), Opcode, [
      TypedOperand(fmt, input1, cm.inputs[0].dataType, cm.inputs[0].valueType),
      TypedOperand(fmt, input2, DataType.Scalar, ValueType.Int),
      TypedOperand(fmt, output, cm.dataType, cm.valueType)]));
  }

  /**
   * What a runtime reads from an index-bound instruction: the two indices,
   * the order either as a literal or as a deferred label, and the forced
   * SCALAR/INT tags on the order.
   */
  lemma ReadGetInstructionsIndexed(fmt: Format, cm: Lop, inputIndex: int32, outputIndex: int32)
    requires |cm.inputs| >= 2 && OrderCastSafe(cm)
    requires Readable(fmt) && IndexSafe(fmt) && Clean(fmt, cm.inputs[1].outputLabel)
    ensures var p := Parse(fmt, GetInstructionsIndexed(fmt, cm, inputIndex, outputIndex));
      && p.Some? && p.value.execTag == fmt.execTypeName(cm.lps.execType) && p.value.opcode == Opcode
      && |p.value.operands| == 3
      && DecimalValue(p.value.operands[0].text) == inputIndex as int
      && p.value.operands[0].dataType == fmt.dataTypeName(cm.inputs[0].dataType)
      && p.value.operands[0].valueType == fmt.valueTypeName(cm.inputs[0].valueType)
      && (OrderIsLiteral(cm) ==> p.value.operands[1].text == cm.inputs[1].outputLabel)
      && (!OrderIsLiteral(cm) ==>
            IsDeferred(p.value.operands[1].text) && Unmark(p.value.operands[1].text) == cm.inputs[1].outputLabel)
      && p.value.operands[1].dataType == fmt.dataTypeName(DataType.Scalar)
      && p.value.operands[1].valueType == fmt.valueTypeName(ValueType.Int)
      && DecimalValue(p.value.operands[2].text) == outputIndex as int
      && p.value.operands[2].dataType == fmt.dataTypeName(cm.dataType)
      && p.value.operands[2].valueType == fmt.valueTypeName(cm.valueType)
  {
    var inText, outText := Decimal(inputIndex as int), Decimal(outputIndex as int);
    assert Clean(fmt, inText) && Clean(fmt, outText);
    var name := cm.inputs[1].outputLabel;
    assert forall c | c in Deferred(name) :: c == '#' || c in name;
    assert Clean(fmt, OrderField(cm));
    ReadGetInstructions3(fmt, cm, inText, OrderField(cm), outText);
    DecimalRoundTrip(inputIndex as int);
    DecimalRoundTrip(outputIndex as int);
  }

  // ---------------------------------------------------------------- scenarios

  /** An index-bound distributed instruction with data at index 0, output at index 1 and order text `order`. */
  function IndexedMR(fmt: Format, order: string): Instruction
  {
    Instruction(fmt.execTypeName(ExecType.MR), Opcode, [
      TypedOperand(fmt, "0", DataType.Matrix, ValueType.Double),
      TypedOperand(fmt, order, DataType.Scalar, ValueType.Int),
      TypedOperand(fmt, "1", DataType.Scalar, ValueType.Double)])
  }

  /** What a runtime reads from the index-bound instruction of a distributed lop over matrix data and `order`. */
  lemma ReadIndexedMR(fmt: Format, cm: Lop, data: Lop, order: Lop)
    requires cm.inputs == [data, order] && cm.lps.execType == ExecType.MR
    requires data.dataType == DataType.Matrix && data.valueType == ValueType.Double
    requires cm.dataType == DataType.Scalar && cm.valueType == ValueType.Double
    requires order.lps.execLocation == ExecLocation.Data && order.kind == LopType.Data
    requires Readable(fmt) && IndexSafe(fmt) && Clean(fmt, order.outputLabel)
    ensures Parse(fmt, GetInstructionsIndexed(fmt, cm, 0, 1))
         == Some(IndexedMR(fmt, if order.isLiteral then order.outputLabel else Deferred(order.outputLabel)))
  {
    var field := if order.isLiteral then order.outputLabel else Deferred(order.outputLabel);
    assert Decimal(0) == "0" && Decimal(1) == "1";
    assert OrderField(cm) == field;
    assert GetInstructionsIndexed(fmt, cm, 0, 1) == Render(fmt, IndexedMR(fmt, field));
    assert forall c | c in Deferred(order.outputLabel) :: c == '#' || c in order.outputLabel;
    assert forall c | c in "0" + "1" :: '0' <= c <= '9';
    ParseRender(fmt, IndexedMR(fmt, field));
  }

  /** Builds a distributed central moment over matrix data and `order`, and emits it by index. */
  method EmitDistributed(order: Lop, fmt: Format) returns (cm: Lop, text: string)
    requires order.lps.execLocation == ExecLocation.Data && order.kind == LopType.Data
    requires Readable(fmt) && IndexSafe(fmt) && Clean(fmt, order.outputLabel)
    modifies order`outputs
    ensures fresh(cm) && |cm.inputs| == 2 && cm.inputs[1] == order && cm.lps.execType == ExecType.MR
    ensures OrderCastSafe(cm) && text == GetInstructionsIndexed(fmt, cm, 0, 1)
    ensures order.outputs == old(order.outputs) + [cm]
    ensures Parse(fmt, text) == Some(IndexedMR(fmt, if order.isLiteral then order.outputLabel
                                                     else Deferred(order.outputLabel)))
  {
    var data := new Lop.Data("X", false, DataType.Matrix, ValueType.Double, ExecType.MR);
    cm := CreateDefault(data, order, DataType.Scalar, ValueType.Double);
    text := GetInstructionsIndexed(fmt, cm, 0, 1);
    ReadIndexedMR(fmt, cm, data, order);
    CountTwo(order, data, order);
    assert Copies(cm, 1) == [cm];
  }
}

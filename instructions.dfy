/**
 * The textual instruction format that lops are lowered to, and the
 * positional reader a runtime applies to it.
 *
 * An instruction is an exec-type tag, an opcode and a list of operand
 * descriptors, joined by the operand delimiter; a descriptor is a label,
 * the data-type prefix, a data-type name, the value-type prefix and a
 * value-type name.  The delimiter strings and the spelling of enumeration
 * values are defined elsewhere in the system, so a `Format` carries them as
 * parameters and every property below holds for all of them.
 */
module Instructions {
  import opened LopTypes

  datatype Option<T> = None | Some(value: T)

  /** The uninterpreted constants of the format. */
  datatype Format = Format(
    operandDelimiter: string,
    dataTypePrefix: string,
    valueTypePrefix: string,
    execTypeName: ExecType -> string,
    dataTypeName: DataType -> string,
    valueTypeName: ValueType -> string)

  datatype Operand = Operand(text: string, dataType: string, valueType: string)

  datatype Instruction = Instruction(execTag: string, opcode: string, operands: seq<Operand>)

  /** Marker placed on both sides of a label whose value is bound only at run time. */
  const DeferredMarker: string := "##"

  // ---------------------------------------------------------------- writing

  /** A descriptor whose types are spelled by the format. */
  function TypedOperand(fmt: Format, text: string, dt: DataType, vt: ValueType): Operand
  {
    Operand(text, fmt.dataTypeName(dt), fmt.valueTypeName(vt))
  }

  /** `text` wrapped in the deferred-value marker. */
  function Deferred(text: string): string
  {
    DeferredMarker + text + DeferredMarker
  }

  /** `s` is wrapped in the deferred-value marker. */
  predicate IsDeferred(s: string)
  {
    |s| >= 2 * |DeferredMarker| &&
    s[..|DeferredMarker|] == DeferredMarker && s[|s| - |DeferredMarker|..] == DeferredMarker
  }

  /** What the runtime substitutes for: the text inside the marker. */
  function Unmark(s: string): string
    requires IsDeferred(s)
  {
    s[|DeferredMarker|..|s| - |DeferredMarker|]
  }

  lemma DeferredIsMarked(text: string)
    ensures IsDeferred(Deferred(text)) && Unmark(Deferred(text)) == text
  {
  }

  function RenderOperand(fmt: Format, op: Operand): string
  {
    op.text + fmt.dataTypePrefix + op.dataType + fmt.valueTypePrefix + op.valueType
  }

  /** Each operand preceded by the operand delimiter. */
  function RenderOperands(fmt: Format, ops: seq<Operand>): string
    decreases |ops|
  {
    if ops == [] then ""
    else fmt.operandDelimiter + RenderOperand(fmt, ops[0]) + RenderOperands(fmt, ops[1..])
  }

  function Render(fmt: Format, ins: Instruction): string
  {
    ins.execTag + fmt.operandDelimiter + ins.opcode + RenderOperands(fmt, ins.operands)
  }

  /** Rendering by appending one operand at a time to `acc`, in the order a writer concatenates. */
  function RenderFrom(fmt: Format, acc: string, ops: seq<Operand>): string
    decreases |ops|
  {
    if ops == [] then acc
    else RenderFrom(fmt, acc + fmt.operandDelimiter + RenderOperand(fmt, ops[0]), ops[1..])
  }

  /** Appending operands one at a time writes the same text as `RenderOperands`. */
  lemma {:induction false} RenderFromAppends(fmt: Format, acc: string, ops: seq<Operand>)
    ensures RenderFrom(fmt, acc, ops) == acc + RenderOperands(fmt, ops)
    decreases |ops|
  {
    if ops != [] {
      var head := fmt.operandDelimiter + RenderOperand(fmt, ops[0]);
      var next := acc + fmt.operandDelimiter + RenderOperand(fmt, ops[0]);
      RenderFromAppends(fmt, next, ops[1..]);
      assert next == acc + head;
      assert next + RenderOperands(fmt, ops[1..]) == acc + (head + RenderOperands(fmt, ops[1..]));
    }
  }

  /** An instruction with three operands, written out. */
  lemma RenderThree(fmt: Format, tag: string, opcode: string, a: Operand, b: Operand, c: Operand)
    ensures Render(fmt, Instruction(tag, opcode, [a, b, c]))
         == tag + fmt.operandDelimiter + opcode
            + fmt.operandDelimiter + RenderOperand(fmt, a)
            + fmt.operandDelimiter + RenderOperand(fmt, b)
            + fmt.operandDelimiter + RenderOperand(fmt, c)
  {
    var d := fmt.operandDelimiter;
    var h := tag + d + opcode;
    RenderFromAppends(fmt, h, [a, b, c]);
    assert [a, b, c][1..] == [b, c] && [b, c][1..] == [c] && [c][1..] == [];
    var ha := h + d + RenderOperand(fmt, a);
    var hb := ha + d + RenderOperand(fmt, b);
    var hc := hb + d + RenderOperand(fmt, c);
    assert RenderFrom(fmt, hb, [c]) == hc;
    assert RenderFrom(fmt, ha, [b, c]) == hc;
  }

  /** An instruction with four operands, written out. */
  lemma RenderFour(fmt: Format, tag: string, opcode: string, a: Operand, b: Operand, c: Operand, e: Operand)
    ensures Render(fmt, Instruction(tag, opcode, [a, b, c, e]))
         == tag + fmt.operandDelimiter + opcode
            + fmt.operandDelimiter + RenderOperand(fmt, a)
            + fmt.operandDelimiter + RenderOperand(fmt, b)
            + fmt.operandDelimiter + RenderOperand(fmt, c)
            + fmt.operandDelimiter + RenderOperand(fmt, e)
  {
    var d := fmt.operandDelimiter;
    var h := tag + d + opcode;
    RenderFromAppends(fmt, h, [a, b, c, e]);
    assert [a, b, c, e][1..] == [b, c, e] && [b, c, e][1..] == [c, e] && [c, e][1..] == [e] && [e][1..] == [];
    var ha := h + d + RenderOperand(fmt, a);
    var hb := ha + d + RenderOperand(fmt, b);
    var hc := hb + d + RenderOperand(fmt, c);
    var he := hc + d + RenderOperand(fmt, e);
    assert RenderFrom(fmt, hc, [e]) == he;
    assert RenderFrom(fmt, hb, [c, e]) == he;
    assert RenderFrom(fmt, ha, [b, c, e]) == he;
  }

  // ---------------------------------------------------------------- reading

  predicate NoSep(s: string, seps: set<char>)
  {
    forall c | c in s :: c !in seps
  }

  /** Splits `s` at every character of `seps`; `k` separators give `k + 1` pieces. */
  function Split(s: string, seps: set<char>): (r: seq<string>)
    ensures |r| >= 1
    decreases |s|
  {
    if s == [] then [""]
    else
      var rest := Split(s[1..], seps);
      if s[0] in seps then [""] + rest
      else [[s[0]] + rest[0]] + rest[1..]
  }

  /** The delimiters are single characters, and the operand delimiter differs from both prefixes. */
  predicate Parsable(fmt: Format)
  {
    |fmt.operandDelimiter| == 1 && |fmt.dataTypePrefix| == 1 && |fmt.valueTypePrefix| == 1 &&
    fmt.operandDelimiter[0] != fmt.dataTypePrefix[0] &&
    fmt.operandDelimiter[0] != fmt.valueTypePrefix[0]
  }

  function FieldSeps(fmt: Format): set<char>
    requires Parsable(fmt)
  {
    {fmt.operandDelimiter[0]}
  }

  function TypeSeps(fmt: Format): set<char>
    requires Parsable(fmt)
  {
    {fmt.dataTypePrefix[0], fmt.valueTypePrefix[0]}
  }

  /** `s` holds none of the format's delimiter characters. */
  predicate Clean(fmt: Format, s: string)
    requires Parsable(fmt)
  {
    NoSep(s, FieldSeps(fmt) + TypeSeps(fmt))
  }

  /** Every enumeration value is spelled without delimiter characters. */
  predicate CleanNames(fmt: Format)
    requires Parsable(fmt)
  {
    (forall e: ExecType :: Clean(fmt, fmt.execTypeName(e))) &&
    (forall d: DataType :: Clean(fmt, fmt.dataTypeName(d))) &&
    (forall v: ValueType :: Clean(fmt, fmt.valueTypeName(v)))
  }

  predicate CleanInstruction(fmt: Format, ins: Instruction)
    requires Parsable(fmt)
  {
    Clean(fmt, ins.execTag) && Clean(fmt, ins.opcode) &&
    forall op | op in ins.operands ::
      Clean(fmt, op.text) && Clean(fmt, op.dataType) && Clean(fmt, op.valueType)
  }

  /** The rendered text of each operand, in order. */
  function OperandTexts(fmt: Format, ops: seq<Operand>): seq<string>
    decreases |ops|
  {
    if ops == [] then [] else [RenderOperand(fmt, ops[0])] + OperandTexts(fmt, ops[1..])
  }

  function ParseOperands(fmt: Format, fields: seq<string>): Option<seq<Operand>>
    requires Parsable(fmt)
    decreases |fields|
  {
    if fields == [] then Some([])
    else
      var parts := Split(fields[0], TypeSeps(fmt));
      if |parts| != 3 then None
      else match ParseOperands(fmt, fields[1..])
        case None => None
        case Some(rest) => Some([Operand(parts[0], parts[1], parts[2])] + rest)
  }

  /** Reads an instruction back field by field, as a positional runtime parser does. */
  function Parse(fmt: Format, s: string): Option<Instruction>
    requires Parsable(fmt)
  {
    var fields := Split(s, FieldSeps(fmt));
    if |fields| < 2 then None
    else match ParseOperands(fmt, fields[2..])
      case None => None
      case Some(ops) => Some(Instruction(fields[0], fields[1], ops))
  }

  // ---------------------------------------------------------------- lemmas

  /** A separator-free string is one piece. */
  lemma {:induction false} SplitNoSep(s: string, seps: set<char>)
    requires NoSep(s, seps)
    ensures Split(s, seps) == [s]
    decreases |s|
  {
    if s != [] {
      assert s[0] in s;
      assert forall c | c in s[1..] :: c in s;
      SplitNoSep(s[1..], seps);
      assert [s[0]] + s[1..] == s;
    }
  }

  /** Splitting after a separator-free prefix. */
  lemma {:induction false} SplitAfter(x: string, c: char, y: string, seps: set<char>)
    requires NoSep(x, seps) && c in seps
    ensures Split(x + [c] + y, seps) == [x] + Split(y, seps)
    decreases |x|
  {
    var s := x + [c] + y;
    if x == [] {
      assert s[1..] == y;
    } else {
      assert s[1..] == x[1..] + [c] + y;
      assert s[0] == x[0];
      SplitAfter(x[1..], c, y, seps);
      assert [x[0]] + x[1..] == x;
    }
  }

  lemma CleanOperandText(fmt: Format, op: Operand)
    requires Parsable(fmt)
    requires Clean(fmt, op.text) && Clean(fmt, op.dataType) && Clean(fmt, op.valueType)
    ensures NoSep(RenderOperand(fmt, op), FieldSeps(fmt))
    ensures Split(RenderOperand(fmt, op), TypeSeps(fmt)) == [op.text, op.dataType, op.valueType]
  {
    var dp, vp := fmt.dataTypePrefix[0], fmt.valueTypePrefix[0];
    assert fmt.dataTypePrefix == [dp] && fmt.valueTypePrefix == [vp];
    assert RenderOperand(fmt, op) == op.text + [dp] + (op.dataType + [vp] + op.valueType);
    SplitAfter(op.text, dp, op.dataType + [vp] + op.valueType, TypeSeps(fmt));
    SplitAfter(op.dataType, vp, op.valueType, TypeSeps(fmt));
    SplitNoSep(op.valueType, TypeSeps(fmt));
  }

  /** The fields of `w` followed by rendered operands are `w` and the operand texts. */
  lemma {:induction false} SplitRenderedOperands(fmt: Format, w: string, ops: seq<Operand>)
    requires Parsable(fmt) && NoSep(w, FieldSeps(fmt))
    requires forall op | op in ops ::
      Clean(fmt, op.text) && Clean(fmt, op.dataType) && Clean(fmt, op.valueType)
    ensures Split(w + RenderOperands(fmt, ops), FieldSeps(fmt)) == [w] + OperandTexts(fmt, ops)
    ensures ParseOperands(fmt, OperandTexts(fmt, ops)) == Some(ops)
    decreases |ops|
  {
    if ops == [] {
      assert w + RenderOperands(fmt, ops) == w;
      SplitNoSep(w, FieldSeps(fmt));
    } else {
      var d := fmt.operandDelimiter[0];
      assert fmt.operandDelimiter == [d];
      assert ops[0] in ops;
      assert forall op | op in ops[1..] :: op in ops;
      var head := RenderOperand(fmt, ops[0]);
      var tail := RenderOperands(fmt, ops[1..]);
      CleanOperandText(fmt, ops[0]);
      assert w + RenderOperands(fmt, ops) == w + [d] + (head + tail);
      SplitAfter(w, d, head + tail, FieldSeps(fmt));
      SplitRenderedOperands(fmt, head, ops[1..]);
      assert [ops[0]] + ops[1..] == ops;
    }
  }

  /** The positional reader recovers every field of a clean instruction. */
  lemma ParseRender(fmt: Format, ins: Instruction)
    requires Parsable(fmt) && CleanInstruction(fmt, ins)
    ensures Parse(fmt, Render(fmt, ins)) == Some(ins)
  {
    var d := fmt.operandDelimiter[0];
    assert fmt.operandDelimiter == [d];
    var ops := ins.operands;
    assert Render(fmt, ins) == ins.execTag + [d] + (ins.opcode + RenderOperands(fmt, ops));
    SplitAfter(ins.execTag, d, ins.opcode + RenderOperands(fmt, ops), FieldSeps(fmt));
    SplitRenderedOperands(fmt, ins.opcode, ops);
    var fields := Split(Render(fmt, ins), FieldSeps(fmt));
    assert fields == [ins.execTag, ins.opcode] + OperandTexts(fmt, ops);
    assert fields[2..] == OperandTexts(fmt, ops);
  }

  // ---------------------------------------------------------------- decimals

  function DigitChar(d: nat): (c: char)
    requires d < 10
    ensures '0' <= c <= '9' && c as int - '0' as int == d
  {
    (d + '0' as int) as char
  }

  /** Decimal digits of `n`, without leading zeros. */
  function NatDecimal(n: nat): (s: string)
    ensures |s| >= 1 && forall c | c in s :: '0' <= c <= '9'
    ensures forall k | 0 <= k < |s| :: '0' <= s[k] <= '9'
    ensures s[0] == '0' ==> n == 0
    decreases n
  {
    if n < 10 then [DigitChar(n)] else NatDecimal(n / 10) + [DigitChar(n % 10)]
  }

  /** Decimal rendering of an integer, with a leading '-' when it is negative (Java's `i + ""`). */
  function Decimal(i: int): (s: string)
    ensures |s| >= 1 && forall c | c in s :: c == '-' || '0' <= c <= '9'
    ensures (s[0] == '-') == (i < 0)
    ensures i < 0 ==> |s| >= 2
    ensures forall k | 0 < k < |s| :: '0' <= s[k] <= '9'
    ensures s[if i < 0 then 1 else 0] == '0' ==> i == 0
  {
    if i < 0 then "-" + NatDecimal(-i) else NatDecimal(i)
  }

  function DigitsValue(s: string): int
    decreases |s|
  {
    if s == [] then 0 else DigitsValue(s[..|s| - 1]) * 10 + (s[|s| - 1] as int - '0' as int)
  }

  function DecimalValue(s: string): int
  {
    if |s| > 0 && s[0] == '-' then - DigitsValue(s[1..]) else DigitsValue(s)
  }

  lemma {:induction false} DigitsValueOfNatDecimal(n: nat)
    ensures DigitsValue(NatDecimal(n)) == n
    decreases n
  {
    if n >= 10 {
      var s := NatDecimal(n);
      assert s[..|s| - 1] == NatDecimal(n / 10);
      DigitsValueOfNatDecimal(n / 10);
    }
  }

  /** Reading a rendered integer gives the integer back: the rendering is injective. */
  lemma DecimalRoundTrip(i: int)
    ensures DecimalValue(Decimal(i)) == i
  {
    if i < 0 {
      assert Decimal(i)[1..] == NatDecimal(-i);
      DigitsValueOfNatDecimal(-i);
    } else {
      assert Decimal(i)[0] in Decimal(i);
      DigitsValueOfNatDecimal(i);
    }
  }
}

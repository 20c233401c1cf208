# Central-moment lop: a Dafny model

This project models the central-moment physical operator (`CentralMoment`) of
the SystemML lowering stage. It covers the parts of the operator graph
("lops") that the operator touches. A central-moment lop takes a data input,
an order input (the moment's order: 0, 2, 3 or 4) and, in the control
program only, an optional weights input.

It models two things:

- **Construction.** The lop is wired into the graph: it lists its inputs in
  order, and each input lists it as a consumer. Its execution properties
  depend on the backend. On the distributed backend (`MR`) the location is
  MapAndReduce, it defines a job and it is compatible with the `CM_COV` job
  template. On any other backend the location is ControlProgram, it does not
  define a job and its only template is `INVALID`.
- **Instruction emission.** The three `getInstructions` overloads write one
  line of text with a fixed positional layout. An exec-type tag, the opcode
  `cm`, then one descriptor per operand (label, data-type prefix, data type,
  value-type prefix, value type), all joined by the operand delimiter. The
  index-based form writes the order operand as the order lop's label when
  that lop is a literal Data lop. Otherwise it wraps the label as `##label##`,
  which the runtime replaces later.

Files:

- `lop_types.dfy` (module `LopTypes`): the enumerations.
- `instructions.dfy` (module `Instructions`):
  - the instruction record and its rendering;
  - the deferred marker;
  - decimal rendering of Java `int`s;
  - a positional reader `Parse`, the way a runtime splits an instruction. It is the inverse that the emission is proved against.
- `lops.dfy` (module `Lops`): the `Lop` node class and the `LopProperties` class. They are shown only as far as the operator uses them.
- `central_moment.dfy` (module `CentralMomentLop`):
  - `Init` and the four constructors;
  - the three emitters;
  - lemmas about what a runtime reads back.

About the design:

- **Delimiters.** The delimiter strings are defined outside `CentralMoment.java`, and so is the way enumeration values are spelled. A `Format` value therefore carries them, and every result holds for every format. The read-back lemmas ask that every delimiter be one character, that the operand delimiter differ from each prefix (the two prefixes may be equal), and that labels, the opcode and the enumeration names contain no delimiter character. The lemmas about the index-bound form also ask that no delimiter be a digit, `-` or `#`.
- **Constructors.** Java uses inheritance; the model uses no traits. So `Lop` is one class with a kind tag. The Java constructors are methods that call the base constructor and then `Init`, as `super(...)` followed by `init(...)` does.
- **Functions.** The emitters are functions of the node state. Calling one never changes a node, so two calls with the same arguments return the same string.

Two behaviours of the code worth noting:

- Under `MR`, a third (weights) input is silently ignored (the MR branch at `CentralMoment.java:31-35` never calls `addInput` for it; only the other branch, lines 36-42, does). No arity error is raised.
- In the 4-argument form, the *third* operand (line 80) is tagged SCALAR/INT, although the comment at `CentralMoment.java:76` speaks of the value type of "order". The second operand (line 79) carries the declared types of `inputs[1]`.

## Model

| member | source | states |
|---|---|---|
| `Lops.Lop.constructor` | SystemML/DML/src/com/ibm/bi/dml/lops/CentralMoment.java:60 | the base constructor gives a lop of the given kind and types with no inputs, no consumers and fresh, unset properties |
| `Lops.Lop.Data` | SystemML/DML/src/com/ibm/bi/dml/lops/CentralMoment.java:108-109 | a data-source lop has location Data and the given label and literal flag (the state the order test reads) |
| `Lops.Lop.AddInput` | SystemML/DML/src/com/ibm/bi/dml/lops/CentralMoment.java:23-24 | the input list grows by exactly the given node at its end; nothing else changes |
| `Lops.Lop.AddOutput` | SystemML/DML/src/com/ibm/bi/dml/lops/CentralMoment.java:25-26 | the consumer list grows by exactly the given node at its end; nothing else changes |
| `Lops.LopProperties.AddCompatibility` | SystemML/DML/src/com/ibm/bi/dml/lops/CentralMoment.java:33 | the template set gains the given template; every other property is kept |
| `Lops.LopProperties.SetProperties` | SystemML/DML/src/com/ibm/bi/dml/lops/CentralMoment.java:34 | backend, location and the three flags become the arguments; the template set is kept |
| `CentralMomentLop.Attached` | SystemML/DML/src/com/ibm/bi/dml/lops/CentralMoment.java:22-41 | the inputs are data then order, plus the weights exactly when the backend is not MR and weights were supplied |
| `CentralMomentLop.Compatibility` | SystemML/DML/src/com/ibm/bi/dml/lops/CentralMoment.java:31-44 | the declared template is CM_COV exactly when the backend is MR |
| `CentralMomentLop.CmProperties` | SystemML/DML/src/com/ibm/bi/dml/lops/CentralMoment.java:28-44 | resulting properties are consistent (MR never at ControlProgram, any other backend never in a Map or Reduce phase, only MR defines a job); MR gives MapAndReduce, job-defining, {CM_COV}; any other backend gives ControlProgram, not job-defining, {INVALID}; never alignment-breaking or aligner |
| `CentralMomentLop.ConnectDataAndOrder` | SystemML/DML/src/com/ibm/bi/dml/lops/CentralMoment.java:23-26 | data and order are appended to the inputs; each of them (and an aliased weights node) gains the lop once per occurrence among the two, all else unchanged |
| `CentralMomentLop.Init` | SystemML/DML/src/com/ibm/bi/dml/lops/CentralMoment.java:22-45 | inputs grow by exactly the attached list; every input node gains the lop as consumer once per occurrence, so a weights node under MR is untouched; properties set per backend, template set gains the backend's template |
| `CentralMomentLop.Create` | SystemML/DML/src/com/ibm/bi/dml/lops/CentralMoment.java:59-62 | a fresh lop of kind CentralMoment with the given types, inputs exactly the attached list, no consumers, properties equal to the backend's, inputs' consumer lists extended as above and nothing else changed |
| `CentralMomentLop.CreateDefault` | SystemML/DML/src/com/ibm/bi/dml/lops/CentralMoment.java:47-49 | the same final state as the full constructor with no weights and backend MR |
| `CentralMomentLop.CreateWithExecType` | SystemML/DML/src/com/ibm/bi/dml/lops/CentralMoment.java:51-53 | the same final state as the full constructor with no weights |
| `CentralMomentLop.CreateWeighted` | SystemML/DML/src/com/ibm/bi/dml/lops/CentralMoment.java:55-57 | the same final state as the full constructor with backend MR, so the weights are dropped |
| `CentralMomentLop.DistinctInputsConnectOnce` | SystemML/DML/src/com/ibm/bi/dml/lops/CentralMoment.java:22-44 | with three distinct inputs, data and order gain the lop exactly once, and the weights once off MR and never under MR |
| `CentralMomentLop.GetInstructions4` | SystemML/DML/src/com/ibm/bi/dml/lops/CentralMoment.java:71-83 | the text is the instruction record: exec tag, `cm`, data typed as input 0, second operand typed as input 1, third operand SCALAR/INT, output typed as the lop |
| `CentralMomentLop.GetInstructions3` | SystemML/DML/src/com/ibm/bi/dml/lops/CentralMoment.java:86-97 | the text is the instruction record: exec tag, `cm`, data typed as input 0, order typed SCALAR/INT whatever input 1 declares, output typed as the lop |
| `CentralMomentLop.OrderField` | SystemML/DML/src/com/ibm/bi/dml/lops/CentralMoment.java:103-112 | a literal Data order lop gives its label unchanged; any other gives a marked text whose inside is the label; for unmarked labels, marked exactly when not a literal |
| `CentralMomentLop.GetInstructionsIndexed` | SystemML/DML/src/com/ibm/bi/dml/lops/CentralMoment.java:100-115 | the text is the three-operand record with the decimal input index, the order field and the decimal output index |
| `CentralMomentLop.ReadGetInstructions4` | SystemML/DML/src/com/ibm/bi/dml/lops/CentralMoment.java:71-83 | a positional reader recovers exec tag, opcode and exactly these four descriptors from the text |
| `CentralMomentLop.ReadGetInstructions3` | SystemML/DML/src/com/ibm/bi/dml/lops/CentralMoment.java:86-97 | a positional reader recovers exec tag, opcode and exactly these three descriptors; the order's tags are SCALAR/INT |
| `CentralMomentLop.ReadGetInstructionsIndexed` | SystemML/DML/src/com/ibm/bi/dml/lops/CentralMoment.java:100-115 | a reader gets back both indices as numbers, the order's label (literal or inside the marker) tagged SCALAR/INT, and the data and output types |
| `CentralMomentLop.ReadIndexedMR` | SystemML/DML/src/com/ibm/bi/dml/lops/CentralMoment.java:100-115 | for an MR lop over matrix data and a Data order lop, the index-bound text with indices 0 and 1 reads back as tag MR, `cm`, "0" typed as the data, the order's label (as is if literal, `##`-wrapped otherwise) typed SCALAR/INT, and "1" typed as the result |
| `CentralMomentLop.EmitDistributed` | SystemML/DML/src/com/ibm/bi/dml/lops/CentralMoment.java:47-115 | returns a fresh MR lop whose order input is `order` and the text its index-bound emitter gives for indices 0 and 1; `order` gains exactly that lop as one more consumer; building a distributed lop over matrix data and a Data order lop and emitting it by index reads back as tag MR, `cm`, "0" typed as the data, the order's label (as is if literal, `##`-wrapped otherwise) typed SCALAR/INT, and "1" typed as the result |
| `Instructions.ParseRender` | SystemML/DML/src/com/ibm/bi/dml/lops/CentralMoment.java:92-95 | for single-character delimiters absent from every field, reading a rendered instruction gives back the instruction |
| `Instructions.Decimal` | SystemML/DML/src/com/ibm/bi/dml/lops/CentralMoment.java:114 | an index is rendered as a non-empty run of digits without leading zeros (the single digit `0` for zero), preceded by a minus sign exactly when it is negative |
| `Instructions.DecimalRoundTrip` | SystemML/DML/src/com/ibm/bi/dml/lops/CentralMoment.java:114 | reading a rendered index gives the index back, so distinct indices give distinct texts |
| `Instructions.DeferredIsMarked` | SystemML/DML/src/com/ibm/bi/dml/lops/CentralMoment.java:112 | wrapping a label in `##` yields a marked text whose inside is the label |

## Left out

- `toString()` returns a constant and is not modelled.
- Other parts of the `Lops` base class, `LopProperties`, `Data`, `OutputParameters` and `JobType` are not part of this model. Their state is reduced to what this operator reads or writes. A new properties object is assumed to start unset, with an empty template set.
- The value of the delimiter strings and the spelling of enumeration values are defined outside this file. Both are parameters (`Instructions.Format`).
- Only some values of the enumerations are modelled: the ones this operator uses, plus a few representatives.
- No arity or consistency error is raised for weights under MR. The code raises none either; the input is ignored.
- Cycle detection is not modelled; the code performs none.
- A null data or order input (a `NullPointerException` in Java) is excluded by the types.
- Labels are never null: the label arguments of the emitters and `outputLabel` are Dafny strings. Java's `+` writes a null `String` as "null", so a null argument, or a null order label at line 103 ("null" or "##null##"), is not modelled.
- The base constructor gives an empty `outputLabel`. It stands for the label of output parameters that have not been set yet; `OutputParameters` is not part of this model.
- The cast of the order input to `Data` is the precondition `OrderCastSafe`: a lop located at Data is a Data lop. The `ClassCastException` that Java would raise otherwise is not modelled.
- The 4-argument and index-bound emitters require at least two inputs, as their `getInputs().get(1)` (lines 79 and 103) does; the 3-argument emitter reads only `getInputs().get(0)` (line 93) and requires one. Fewer inputs would throw `IndexOutOfBoundsException`, which is not modelled.
- The wiring methods require that the new lop is none of its own inputs. The Java constructor ensures this, because the new object is fresh.
- Nothing is modelled of the runtime that replaces `##…##` markers, the job scheduler that reads template sets, or the optimizer that picks the backend.
- The central moment itself is never computed here.
- `ReadGetInstructions4`, `ReadGetInstructions3`, `ReadGetInstructionsIndexed`, `ReadIndexedMR`, `EmitDistributed`: the reader is proved correct only for formats in which every delimiter is one character and the operand delimiter differs from each prefix (the two prefixes may be equal), and for labels, opcode and enumeration names without delimiter characters. `ReadGetInstructionsIndexed`, `ReadIndexedMR` and `EmitDistributed` further ask that no delimiter be a digit, `-` or `#`. The emitters themselves hold for every format.

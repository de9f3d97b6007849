# Behaviour sequence decoding and the multiline dump display, in Dafny

This project models two parts of ft-explorer.

- **bpdeditor/bpd_classes.py** decodes a BehaviorProviderDefinition
  behaviour sequence, read from a game object dump, into an object graph.
  - A Variable table.
  - The consolidated "linked variables" indirection list.
  - VariableLinks resolved through that list into the Variable table.
  - Event and Behavior nodes. Each node takes a slice of the variable
    links and, afterwards, a slice of the consolidated OutputLinks.
  - Each OutputLink points at its target Behavior node.

  The packed 32-bit fields are decoded exactly as `struct` does:
  - ArrayIndexAndLength as two unsigned 16-bit halves;
  - LinkIdAndLinkedBehavior as a signed byte, a discarded byte and an
    unsigned 16-bit index.
- **ftexplorer/gui.py** holds `DataDisplay.updateText`. With the multiline
  toggle on, it lays out each `Name=Value` dump line across several
  indented lines.

Python's behaviour is written out wherever it matters:
- a `struct.error` for integers outside the signed 32-bit range;
- `KeyError` for unknown enum names;
- `IndexError` for list indexes, including negative-index wrap-around;
- a list comprehension stops at its first exception.

Each of these is a `Result` error value (`PyBuiltins.PyError`).

The modules follow the source's structure:

| file | module | what it holds |
|---|---|---|
| wrappers.dfy | `Wrappers` | Option, Result, Outcome |
| py_builtins.dfy | `PyBuiltins` | `str.strip`, `str.split` (with and without maxsplit 1), `''.join`, list indexing, list comprehensions that may raise |
| packed_fields.dfy | `PackedFields` | `parse_arrayindexandlength`, `parse_linkidandlinkedbehavior`, and the reference encoders they invert |
| bpd_classes.dfy | `BpdClasses` | the two enums and the per-record decoders: VariableData, VariableLinkData, OutputLinkData, EventUserData, EventData, BehaviorData |
| behavior_sequence.dfy | `BpdSequence` | `BehaviorSequence.__init__` |
| multiline_display.dfy | `MultilineDisplay` | the multiline formatter of `updateText` |

How the source's forms are modelled:
- The per-record constructors only compute values, so they are functions.
- EventData and BehaviorData objects are one class, `Node`. Its record is
  fixed once built. Its `outputs` list is appended to in place.
- An OutputLink holds its target as a `Node` reference, as the source
  does.
- `BehaviorSequence.__init__` is a method. It allocates the nodes, then
  fills their output lists with the source's nested loop
  (`BehaviorSequence.StoreOutputLinks`). That loop is proved against
  `ExpectedOutputs` and `SliceTable`.
- The formatter is a method with the source's two nested loops
  (`UpdateText`, `FormatAssignment`). It is proved equal to a scan
  function, `ScanValue`, which folds `Step` over the characters. The layout
  guarantees are lemmas about that scan.

Three places where the decoder's behaviour is easy to misread:
- A -1 entry in ConsolidatedLinkedVariables selects the last variable
  through `variableList[-1]` (`BpdClasses.MinusOneSlotIsLastVariable`).
- An OutputLink index past the end of a non-empty Behavior list raises
  IndexError (`BpdClasses.DecodeOutputLink`).
- A Behavior string with no apostrophe raises IndexError on
  `split("'")[1]` (`BpdClasses.SplitBehavior`).

## Model

| member | source | states |
|---|---|---|
| `PackedFields.ParseArrayIndexAndLength` | bpdeditor/bpd_classes.py:40-49 | succeeds exactly on signed 32-bit inputs (struct.error otherwise); both halves lie in [0, 65535] and index * 65536 + length equals the input modulo 2^32 |
| `PackedFields.ParseLinkIdAndLinkedBehavior` | bpdeditor/bpd_classes.py:51-58 | succeeds exactly on signed 32-bit inputs; the link id lies in [-128, 127] and is the input shifted right arithmetically by 24 bits; the behaviour index is the low 16 bits |
| `PackedFields.ArrayIndexAndLengthRoundTrip` | bpdeditor/bpd_classes.py:40-49 | every (index, length) pair in [0, 65535]^2 is recovered from its packed form |
| `PackedFields.ArrayIndexAndLengthInverse` | bpdeditor/bpd_classes.py:40-49 | re-packing the decoded halves gives back every signed 32-bit input, so the decoding is a bijection |
| `PackedFields.HalvesUnique` | bpdeditor/bpd_classes.py:49 | two 16-bit pairs with the same packed value modulo 2^32 are equal |
| `PackedFields.LinkIdAndLinkedBehaviorRoundTrip` | bpdeditor/bpd_classes.py:51-58 | every (link id, behaviour index) pair in [-128, 127] x [0, 65535] is recovered from its packed form |
| `PackedFields.PaddingByteIgnored` | bpdeditor/bpd_classes.py:57-58 | changing the second byte of the packed integer never changes the decoded link |
| `PackedFields.LinkIdAndLinkedBehaviorInverse` | bpdeditor/bpd_classes.py:51-58 | re-packing a decoded link gives the input with its padding byte zeroed, and gives the input itself exactly when that byte was zero |
| `PackedFields.MinusOneLinkIdOccurs` | bpdeditor/bpd_classes.py:57-58 | the link id -1 really occurs: both the integer -1 and the packed (-1, 0) link decode with link id -1 |
| `PackedFields.BytesOfInt32` | bpdeditor/bpd_classes.py:48 | the four packed bytes are the base-256 digits of the input's 32-bit two's-complement pattern |
| `BpdClasses.ParseVariableType` | bpdeditor/bpd_classes.py:16-33 | `VariableTypes[name]`: a found type has that member name; an unknown name raises KeyError and no member has it |
| `BpdClasses.ParseVariableLinkType` | bpdeditor/bpd_classes.py:9-14 | `VariableLinkTypes[name]`: a found type has that member name; an unknown name raises KeyError and no member has it |
| `BpdClasses.VariableTypeLookupRoundTrip` | bpdeditor/bpd_classes.py:16-33 | looking a VariableTypes member up by its own name finds that member |
| `BpdClasses.VariableLinkTypeLookupRoundTrip` | bpdeditor/bpd_classes.py:9-14 | looking a VariableLinkTypes member up by its own name finds that member |
| `BpdClasses.DecodeVariable` | bpdeditor/bpd_classes.py:67-70 | the name loses its surrounding quotes and the type is the member with that name; it fails with KeyError exactly when no member has the name |
| `BpdClasses.ResolveLinkedVariables` | bpdeditor/bpd_classes.py:86-88 | entry k is `variableList[consolidatedList[index + k]]` with negative slots wrapping round; IndexError exactly when a slot lies past the indirection list or names no variable even after wrap-around |
| `BpdClasses.DecodeVariableLink` | bpdeditor/bpd_classes.py:75-92 | fields copied or looked up as the source does; the linked-variable list is resolved only when both lists are non-empty and is empty otherwise; the exact success condition in each case |
| `BpdClasses.MinusOneSlotIsLastVariable` | bpdeditor/bpd_classes.py:88 | a slot holding -1 resolves to the last variable, not to "no variable" |
| `BpdClasses.DecodeOutputLink` | bpdeditor/bpd_classes.py:96-106 | link id and index are the decoded halves of LinkIdAndLinkedBehavior; the target is the Behavior object at that index when the list is non-empty and None when it is empty; struct.error for a non-32-bit value, and otherwise IndexError at the behaviour index exactly when it lies past a non-empty list |
| `BpdClasses.DecodeEventUserData` | bpdeditor/bpd_classes.py:110-118 | the flags are true exactly when their text is "True"; the event name loses its quotes; the counts are copied |
| `BpdClasses.SliceTable` | bpdeditor/bpd_classes.py:129-130 | `[table[i] for i in range(index, index + length)]`: the very entries table[index + k], in order, exactly when the range fits (or is empty); otherwise struct.error for a non-32-bit reference, or IndexError at the first index past the table |
| `BpdClasses.DecodeEvent` | bpdeditor/bpd_classes.py:120-130 | an EventData's variables are exactly the slice of the consolidated variable links its OutputVariables selects; it fails exactly when that slice does not fit |
| `BpdClasses.SplitBehavior` | bpdeditor/bpd_classes.py:140-145 | "None" gives None/None; otherwise the class is the text before the first apostrophe and the object the text up to the next one; no apostrophe raises IndexError |
| `BpdClasses.DecodeBehavior` | bpdeditor/bpd_classes.py:137-153 | class and object split from the Behavior string; variables exactly the slice LinkedVariables selects; it fails exactly when the split or the slice does |
| `BpdClasses.Node.constructor` | bpdeditor/bpd_classes.py:150 | a new node starts with no outputs |
| `BpdSequence.ParseConsolidatedLinkedVariables` | bpdeditor/bpd_classes.py:175-177 | the empty text gives []; otherwise one integer per comma-separated field (number of commas + 1), in order, and ValueError exactly when some field is not an integer |
| `BpdSequence.OutputLinksDecode` | bpdeditor/bpd_classes.py:182 | the consolidated output links decode exactly when every packed link is 32-bit and, when there are Behavior nodes, names one of them; each link then targets the Behavior object at its index; otherwise the error is the first failing link's |
| `BpdSequence.DecodeTables` | bpdeditor/bpd_classes.py:169-181 | the stages run in the source's order, each consuming the tables the earlier ones built; the decoding fails exactly when one of the stages fails |
| `BpdSequence.ExpectedOutputs` | bpdeditor/bpd_classes.py:185-190 | a node's outputs are no links when the consolidated list is empty, and otherwise exactly the entries its OutputLinks reference selects, in order |
| `BpdSequence.BehaviorSequence.FillOutputs` | bpdeditor/bpd_classes.py:187-190 | for one node with no outputs yet, the inner append loop leaves it holding ExpectedOutputs exactly when its reference selects a range inside the non-empty list, and otherwise fails with the error slicing that list raises |
| `BpdSequence.BehaviorSequence.StoreOutputLinks` | bpdeditor/bpd_classes.py:185-190 | the nested append loop leaves every node, events first, holding ExpectedOutputs; it fails with the first failing node's error exactly when some node's range does not fit a non-empty list |
| `BpdSequence.BehaviorSequence.constructor` | bpdeditor/bpd_classes.py:170-182 | the sequence holds the decoded tables and nodes it is given |
| `BpdSequence.NewNodes` | bpdeditor/bpd_classes.py:180-181 | one fresh, distinct node per record, in order, each with no outputs |
| `BpdSequence.LinkNodes` | bpdeditor/bpd_classes.py:182-190 | resolves the output links against the given Behavior nodes and fills every node's outputs; fails with the first undecodable link's error, else with the first node's out-of-range slice error, and succeeds exactly when neither happens |
| `BpdSequence.DecodeBehaviorSequence` | bpdeditor/bpd_classes.py:169-190 | succeeds exactly when every stage succeeds; otherwise it returns the error of the first failing stage: the tables' error, the first undecodable output link's, or the first node's out-of-range output slice's; the result is a fresh graph of distinct nodes that Decodes the input |
| `BpdSequence.OutputTargetsAreOwnBehaviors` | bpdeditor/bpd_classes.py:182-190 | every output link a node holds targets one of this sequence's own Behavior nodes, or nothing |
| `PyBuiltins.Strip` | bpdeditor/bpd_classes.py:69 | `str.strip('"')`: a contiguous slice of the input with only quotes removed before and after it, neither starting nor ending with a quote |
| `PyBuiltins.Split` | bpdeditor/bpd_classes.py:177 | `str.split(',')`: pieces free of the separator that join back to the input, one more than there are separators |
| `PyBuiltins.SplitJoin` | bpdeditor/bpd_classes.py:177 | splitting a join of separator-free pieces gives the pieces back |
| `PyBuiltins.SplitOnce` | ftexplorer/gui.py:149 | `str.split('=', 1)`: one piece exactly when there is no separator; otherwise the separator-free text before the first one and the rest |
| `PyBuiltins.PyIndex` | bpdeditor/bpd_classes.py:104 | list indexing succeeds exactly on [-len, len), counting negative indexes from the end; IndexError otherwise |
| `PyBuiltins.MapResult` | bpdeditor/bpd_classes.py:174 | a list comprehension succeeds exactly when every element does, and then maps elementwise; otherwise it raises the first failing element's error |
| `MultilineDisplay.UpdateText` | ftexplorer/gui.py:135-181 | the shown text is DisplayText: the dump lines joined unchanged when multiline is off, their layouts joined when it is on |
| `MultilineDisplay.FormatAssignment` | ftexplorer/gui.py:153-176 | the character loop produces exactly the rendered scan of the value |
| `MultilineDisplay.FormatLine` | ftexplorer/gui.py:147-176 | a line without '=' is output unchanged; every line gives at least one output entry |
| `MultilineDisplay.StepLaid` | ftexplorer/gui.py:155-175 | one character of the loop preserves the layout invariant Laid |
| `MultilineDisplay.ScanLaid` | ftexplorer/gui.py:148-175 | after any value, the level is at least 1, the first piece is unindented and keeps the head, later pieces are indented by their level, and every break is justified |
| `MultilineDisplay.StepText` | ftexplorer/gui.py:155-175 | one character of the loop appends exactly that character to the text of the pieces |
| `MultilineDisplay.DepthStep` | ftexplorer/gui.py:155-175 | one character of the loop keeps every piece's indent equal to the nesting depth where it was opened |
| `MultilineDisplay.ScanDepth` | ftexplorer/gui.py:148-175 | indent_level is the clamped nesting depth of the value read so far ('(' +1, ')' -1 only above 1, from 1), and every piece after the first is indented by that depth at the point where it was opened |
| `MultilineDisplay.ScanText` | ftexplorer/gui.py:153-176 | no character is dropped, added or moved: the pieces' texts joined are the head followed by the value |
| `MultilineDisplay.LinePiecesLayout` | ftexplorer/gui.py:149-176 | each output entry of a line holding '=' is 4 spaces per level, the piece's text and, for all but the last, a newline; the texts join back to the line; the first piece is unindented and starts with the line up to its first '=' |
| `MultilineDisplay.LineBreaks` | ftexplorer/gui.py:155-174 | each break follows a '(', precedes a ')', or follows a ',' at a level above 1; past the first '=', every '(' ends a piece, every ')' starts one and every ',' above level 1 ends one |
| `MultilineDisplay.NoAssignmentsUnchanged` | ftexplorer/gui.py:150-151 | when no line holds '=', the multiline text is the plain text |

## Left out

- Text parsing of the object dump into nested dictionaries is not part of this model. Records arrive as datatypes with every field present, so a missing key's KeyError is not modelled.
- `int()` and `float()` on dump fields are not modelled. The integer fields arrive already parsed, and the float fields arrive as already parsed `real` values that are only copied. The one exception is ConsolidatedLinkedVariables, whose comma-split is modelled. Its per-field `int()` is a caller-supplied parser whose failure is ValueError.
- NodeData back-references are not kept, because they are only stored, never read during decoding. The same goes for the `consolidatedList`/`variableList` back-references on VariableLinkData and the always-None CachedPropery, FilterObject and ExtraData fields.
- Variables, VariableLinks and OutputLinks are immutable values, so their object identity is modelled as value equality. The source appends to a node's `Outputs` the same OutputLinkData object that ConsolidatedOutputLinkData holds, and shares VariableLinkData objects between the consolidated list and the nodes. The model keeps equal values, not shared objects, so aliasing between those lists is not captured. Node identity, which output links depend on, is modelled with real references.
- Enum members' numeric values are not modelled, because decoding looks members up only by name.
- The Qt widget side of `updateText` is not modelled: the `if self.node` guard, reading the toolbar toggle, and `setText`. The node's dump lines and the toggle are parameters, and the method returns the text.
- Reconsolidation, re-encoding, node deletion and renumbering are not part of this model, nor are the editor windows, the import/export windows and sandbox/sort_by_manufacturer.py.
- Python's `IndexError` messages are not modelled: the error carries the offending index.

/** The per-record part of bpdeditor/bpd_classes.py: the two enumerations
    from GearboxFramework.BehaviorProviderDefinition, and the decoding of one
    raw record (already parsed from the object dump into fields) into a
    Variable, a VariableLink, an OutputLink, an EventUserData, or the record
    of an Event or Behavior node.

    EventData and BehaviorData are one class, Node, whose immutable record is
    an EventRecord or a BehaviorRecord and whose `outputs` list is filled in
    place by the BehaviorSequence decoder. An OutputLink refers to its target
    Behavior by object reference, as the source does. */
module BpdClasses {
  import opened Wrappers
  import opened PyBuiltins
  import opened PackedFields

  // ---------------------------------------------------------------------
  // Enumerations, looked up by member name as `VariableTypes[name]` does.

  datatype VariableLinkType =
    | BVARLINK_Unknown | BVARLINK_Context | BVARLINK_Input | BVARLINK_Output | BVARLINK_MAX

  datatype VariableType =
    | BVAR_None | BVAR_Bool | BVAR_Int | BVAR_Float | BVAR_Vector | BVAR_Object
    | BVAR_AllPlayers | BVAR_Attribute | BVAR_InstanceData | BVAR_NamedVariable
    | BVAR_NamedKismetVariable | BVAR_DirectionVector | BVAR_AttachmentLocation
    | BVAR_UnaryMath | BVAR_BinaryMath | BVAR_Flag | BVAR_MAX

  function VariableLinkTypeName(t: VariableLinkType): string
  {
    match t
    case BVARLINK_Unknown => "BVARLINK_Unknown"
    case BVARLINK_Context => "BVARLINK_Context"
    case BVARLINK_Input => "BVARLINK_Input"
    case BVARLINK_Output => "BVARLINK_Output"
    case BVARLINK_MAX => "BVARLINK_MAX"
  }

  function VariableTypeName(t: VariableType): string
  {
    match t
    case BVAR_None => "BVAR_None"
    case BVAR_Bool => "BVAR_Bool"
    case BVAR_Int => "BVAR_Int"
    case BVAR_Float => "BVAR_Float"
    case BVAR_Vector => "BVAR_Vector"
    case BVAR_Object => "BVAR_Object"
    case BVAR_AllPlayers => "BVAR_AllPlayers"
    case BVAR_Attribute => "BVAR_Attribute"
    case BVAR_InstanceData => "BVAR_InstanceData"
    case BVAR_NamedVariable => "BVAR_NamedVariable"
    case BVAR_NamedKismetVariable => "BVAR_NamedKismetVariable"
    case BVAR_DirectionVector => "BVAR_DirectionVector"
    case BVAR_AttachmentLocation => "BVAR_AttachmentLocation"
    case BVAR_UnaryMath => "BVAR_UnaryMath"
    case BVAR_BinaryMath => "BVAR_BinaryMath"
    case BVAR_Flag => "BVAR_Flag"
    case BVAR_MAX => "BVAR_MAX"
  }

  /** `VariableLinkTypes[name]`: the member with that name, or KeyError. */
  function ParseVariableLinkType(name: string): (r: Result<VariableLinkType, PyError>)
    ensures r.Ok? ==> VariableLinkTypeName(r.value) == name
    ensures r.Err? ==> r.error == KeyError(name) && forall t :: VariableLinkTypeName(t) != name
  {
    if name == "BVARLINK_Unknown" then Ok(BVARLINK_Unknown)
    else if name == "BVARLINK_Context" then Ok(BVARLINK_Context)
    else if name == "BVARLINK_Input" then Ok(BVARLINK_Input)
    else if name == "BVARLINK_Output" then Ok(BVARLINK_Output)
    else if name == "BVARLINK_MAX" then Ok(BVARLINK_MAX)
    else
      Err(KeyError(name))
  }

  /** `VariableTypes[name]`: the member with that name, or KeyError. */
  function ParseVariableType(name: string): (r: Result<VariableType, PyError>)
    ensures r.Ok? ==> VariableTypeName(r.value) == name
    ensures r.Err? ==> r.error == KeyError(name) && forall t :: VariableTypeName(t) != name
  {
    if name == "BVAR_None" then Ok(BVAR_None)
    else if name == "BVAR_Bool" then Ok(BVAR_Bool)
    else if name == "BVAR_Int" then Ok(BVAR_Int)
    else if name == "BVAR_Float" then Ok(BVAR_Float)
    else if name == "BVAR_Vector" then Ok(BVAR_Vector)
    else if name == "BVAR_Object" then Ok(BVAR_Object)
    else if name == "BVAR_AllPlayers" then Ok(BVAR_AllPlayers)
    else if name == "BVAR_Attribute" then Ok(BVAR_Attribute)
    else if name == "BVAR_InstanceData" then Ok(BVAR_InstanceData)
    else if name == "BVAR_NamedVariable" then Ok(BVAR_NamedVariable)
    else if name == "BVAR_NamedKismetVariable" then Ok(BVAR_NamedKismetVariable)
    else if name == "BVAR_DirectionVector" then Ok(BVAR_DirectionVector)
    else if name == "BVAR_AttachmentLocation" then Ok(BVAR_AttachmentLocation)
    else if name == "BVAR_UnaryMath" then Ok(BVAR_UnaryMath)
    else if name == "BVAR_BinaryMath" then Ok(BVAR_BinaryMath)
    else if name == "BVAR_Flag" then Ok(BVAR_Flag)
    else if name == "BVAR_MAX" then Ok(BVAR_MAX)
    else
      Err(KeyError(name))
  }

  /** Every member is found again under its own name. */
  lemma VariableTypeLookupRoundTrip(t: VariableType)
    ensures ParseVariableType(VariableTypeName(t)) == Ok(t)
  {
    var r := ParseVariableType(VariableTypeName(t));
    assert r.Ok?;
    match t
    case BVAR_None =>
    case BVAR_Bool =>
    case BVAR_Int =>
    case BVAR_Float =>
    case BVAR_Vector =>
    case BVAR_Object =>
    case BVAR_AllPlayers =>
    case BVAR_Attribute =>
    case BVAR_InstanceData =>
    case BVAR_NamedVariable =>
    case BVAR_NamedKismetVariable =>
    case BVAR_DirectionVector =>
    case BVAR_AttachmentLocation =>
    case BVAR_UnaryMath =>
    case BVAR_BinaryMath =>
    case BVAR_Flag =>
    case BVAR_MAX =>
  }

  lemma VariableLinkTypeLookupRoundTrip(t: VariableLinkType)
    ensures ParseVariableLinkType(VariableLinkTypeName(t)) == Ok(t)
  {
    var r := ParseVariableLinkType(VariableLinkTypeName(t));
    assert r.Ok?;
    match t
    case BVARLINK_Unknown =>
    case BVARLINK_Context =>
    case BVARLINK_Input =>
    case BVARLINK_Output =>
    case BVARLINK_MAX =>
  }

  // ---------------------------------------------------------------------
  // Raw records: the fields of one entry of the parsed object dump. The
  // nested `{ArrayIndexAndLength: n}` structs are given as their integer n.

  datatype RawVariable = RawVariable(name: string, typeName: string)

  datatype RawVariableLink = RawVariableLink(
    propertyName: string,
    linkTypeName: string,
    connectionIndex: int,
    linkedVariables: int)

  datatype RawOutputLink = RawOutputLink(linkIdAndLinkedBehavior: int, activateDelay: real)

  datatype RawEventUserData = RawEventUserData(
    eventName: string,
    enabled: string,
    replicate: string,
    maxTriggerCount: int,
    reTriggerDelay: real)

  datatype RawEvent = RawEvent(userData: RawEventUserData, outputVariables: int, outputLinks: int)

  datatype RawBehavior = RawBehavior(behavior: string, linkedVariables: int, outputLinks: int)

  // ---------------------------------------------------------------------
  // Decoded records

  const QUOTE: char := '"'
  const APOSTROPHE: char := '\''

  datatype Variable = Variable(name: string, varType: VariableType)

  datatype VariableLink = VariableLink(
    propertyName: string,
    linkType: VariableLinkType,
    connectionIndex: int,
    linkedVariables: int,               // the packed (index, length) into the consolidated indirection list
    linkedVariableList: seq<Variable>)  // the Variable entries it resolves to

  datatype OutputLink = OutputLink(
    linkIdAndLinkedBehavior: int,
    activeDelay: real,
    linkId: int,
    linkIndex: int,
    linkedBehavior: Option<Node>)

  datatype EventUserData = EventUserData(
    eventName: string,
    enabled: bool,
    replicate: bool,
    maxTriggerCount: int,
    reTriggerDelay: real)

  datatype NodeRecord =
    | EventRecord(
        userData: EventUserData,
        linkedVariables: int,          // OutputVariables.ArrayIndexAndLength
        outputLinks: int,              // OutputLinks.ArrayIndexAndLength
        variables: seq<VariableLink>)
    | BehaviorRecord(
        behavior: string,
        behaviorClass: string,
        behaviorObject: string,
        linkedVariables: int,
        outputLinks: int,
        variables: seq<VariableLink>)

  /** An EventData or BehaviorData object. Its record is fixed once it is
      built; its output links are appended afterwards by the sequence. */
  class Node {
    const record: NodeRecord
    var outputs: seq<OutputLink>

    constructor (record: NodeRecord)
      ensures this.record == record && outputs == []
    {
      this.record := record;
      outputs := [];
    }
  }

  // ---------------------------------------------------------------------
  // VariableData

  /** `VariableData(nodeData)`: the name without its surrounding quotes and
      the type found by name; an unknown type name raises KeyError. */
  function DecodeVariable(raw: RawVariable): (r: Result<Variable, PyError>)
    ensures r.Ok? <==> exists t :: VariableTypeName(t) == raw.typeName
    ensures r.Err? ==> r.error == KeyError(raw.typeName)
    ensures r.Ok? ==> (r.value.name == Strip(raw.name, QUOTE)
                       && VariableTypeName(r.value.varType) == raw.typeName)
  {
    var name := Strip(raw.name, QUOTE);
    var t :- ParseVariableType(raw.typeName);
    Ok(Variable(name, t))
  }

  // ---------------------------------------------------------------------
  // VariableLinkData

  /** Python's index wrap-around for a slot of the indirection list: a
      negative slot counts from the end of the variable list. */
  function WrapIndex(i: int, n: nat): int
  {
    if i < 0 then n + i else i
  }

  /** `[variableList[consolidatedList[i]] for i in range(index, index + length)]`:
      raises IndexError when a slot lies past the end of the indirection list
      or names no variable, even after wrap-around. */
  function ResolveLinkedVariables(consolidatedList: seq<int>, variableList: seq<Variable>, index: nat, length: nat)
    : (r: Result<seq<Variable>, PyError>)
    ensures r.Ok? <==> (length == 0 || index + length <= |consolidatedList|)
                       && forall k :: index <= k < index + length && k < |consolidatedList| ==>
                            -|variableList| <= consolidatedList[k] < |variableList|
    ensures r.Ok? ==> (|r.value| == length
                       && forall k :: 0 <= k < length ==>
                            r.value[k] == variableList[WrapIndex(consolidatedList[index + k], |variableList|)])
    ensures r.Err? ==> r.error.IndexError?
    decreases length
  {
    if length == 0 then Ok([])
    else if index >= |consolidatedList| then Err(IndexError(index))
    else
      var v :- PyIndex(variableList, consolidatedList[index]);
      var rest :- ResolveLinkedVariables(consolidatedList, variableList, index + 1, length - 1);
      Ok([v] + rest)
  }

  /** `VariableLinkData(nodeData, consolidatedList, variableList)`. The linked
      variables are resolved only when both lists are non-empty: entry k is
      `variableList[consolidatedList[index + k]]` for the (index, length)
      packed in LinkedVariables. Otherwise the list is empty and the packed
      field is not even decoded. */
  function DecodeVariableLink(raw: RawVariableLink, consolidatedList: seq<int>, variableList: seq<Variable>)
    : (r: Result<VariableLink, PyError>)
    ensures (|consolidatedList| == 0 || |variableList| == 0) ==>
              (r.Ok? <==> exists t :: VariableLinkTypeName(t) == raw.linkTypeName)
    ensures |consolidatedList| > 0 && |variableList| > 0 ==>
              (r.Ok? <==> (exists t :: VariableLinkTypeName(t) == raw.linkTypeName)
                          && IsInt32(raw.linkedVariables)
                          && var (index, length) := ParseArrayIndexAndLength(raw.linkedVariables).value;
                             ResolveLinkedVariables(consolidatedList, variableList, index, length).Ok?)
    ensures r.Ok? ==> (r.value.propertyName == Strip(raw.propertyName, QUOTE)
                       && VariableLinkTypeName(r.value.linkType) == raw.linkTypeName
                       && r.value.connectionIndex == raw.connectionIndex
                       && r.value.linkedVariables == raw.linkedVariables)
    ensures r.Ok? && (|consolidatedList| == 0 || |variableList| == 0) ==> r.value.linkedVariableList == []
    ensures r.Ok? && |consolidatedList| > 0 && |variableList| > 0 ==>
              var (index, length) := ParseArrayIndexAndLength(raw.linkedVariables).value;
              && |r.value.linkedVariableList| == length
              && forall k :: 0 <= k < length ==>
                   r.value.linkedVariableList[k] == variableList[WrapIndex(consolidatedList[index + k], |variableList|)]
  {
    var name := Strip(raw.propertyName, QUOTE);
    var t :- ParseVariableLinkType(raw.linkTypeName);
    if |consolidatedList| > 0 && |variableList| > 0 then
      var packed :- ParseArrayIndexAndLength(raw.linkedVariables);
      var list :- ResolveLinkedVariables(consolidatedList, variableList, packed.0, packed.1);
      Ok(VariableLink(name, t, raw.connectionIndex, raw.linkedVariables, list))
    else
      Ok(VariableLink(name, t, raw.connectionIndex, raw.linkedVariables, []))
  }

  /** A slot holding -1 is not "unbound": Python's wrap-around binds it to
      the last variable of the sequence. */
  lemma MinusOneSlotIsLastVariable(raw: RawVariableLink, consolidatedList: seq<int>, variableList: seq<Variable>, k: nat)
    requires |variableList| > 0
    requires DecodeVariableLink(raw, consolidatedList, variableList).Ok?
    requires IsInt32(raw.linkedVariables)
    requires var (index, length) := ParseArrayIndexAndLength(raw.linkedVariables).value;
             k < length && index + k < |consolidatedList| && consolidatedList[index + k] == -1
    ensures DecodeVariableLink(raw, consolidatedList, variableList).value.linkedVariableList[k]
            == variableList[|variableList| - 1]
  {
  }

  // ---------------------------------------------------------------------
  // OutputLinkData

  /** `OutputLinkData(nodeData, behaviorList)`: the link id and behaviour
      index decoded from LinkIdAndLinkedBehavior, and the target Behavior
      object at that index when the behaviour list is non-empty (None when
      it is empty). An index past the end of a non-empty list raises
      IndexError. */
  function DecodeOutputLink(raw: RawOutputLink, behaviorList: seq<Node>): (r: Result<OutputLink, PyError>)
    ensures r.Ok? <==> IsInt32(raw.linkIdAndLinkedBehavior)
                       && (|behaviorList| == 0 || raw.linkIdAndLinkedBehavior % TWO_16 < |behaviorList|)
    ensures r.Err? && !IsInt32(raw.linkIdAndLinkedBehavior) ==> r.error == StructError(raw.linkIdAndLinkedBehavior)
    ensures r.Err? && IsInt32(raw.linkIdAndLinkedBehavior) ==>
              r.error == IndexError(raw.linkIdAndLinkedBehavior % TWO_16)
    ensures r.Ok? ==> var o := r.value;
      && o.linkIdAndLinkedBehavior == raw.linkIdAndLinkedBehavior
      && o.activeDelay == raw.activateDelay
      && (o.linkId, o.linkIndex) == ParseLinkIdAndLinkedBehavior(raw.linkIdAndLinkedBehavior).value
      && (|behaviorList| == 0 ==> o.linkedBehavior == None)
      && (|behaviorList| > 0 ==> o.linkedBehavior == Some(behaviorList[o.linkIndex]))
  {
    var link :- ParseLinkIdAndLinkedBehavior(raw.linkIdAndLinkedBehavior);
    var (linkId, behaviorIndex) := link;
    if |behaviorList| > 0 then
      var target :- PyIndex(behaviorList, behaviorIndex);
      Ok(OutputLink(raw.linkIdAndLinkedBehavior, raw.activateDelay, linkId, behaviorIndex, Some(target)))
    else
      Ok(OutputLink(raw.linkIdAndLinkedBehavior, raw.activateDelay, linkId, behaviorIndex, None))
  }

  // ---------------------------------------------------------------------
  // EventUserData, EventData, BehaviorData

  /** `EventUserData(nodeData)`: the flags are true exactly when their text
      is "True"; the event name loses its surrounding quotes. */
  function DecodeEventUserData(raw: RawEventUserData): (r: EventUserData)
    ensures r.eventName == Strip(raw.eventName, QUOTE)
    ensures r.enabled <==> raw.enabled == "True"
    ensures r.replicate <==> raw.replicate == "True"
    ensures r.maxTriggerCount == raw.maxTriggerCount && r.reTriggerDelay == raw.reTriggerDelay
  {
    EventUserData(Strip(raw.eventName, QUOTE), raw.enabled == "True", raw.replicate == "True",
                  raw.maxTriggerCount, raw.reTriggerDelay)
  }

  /** The range of a table an (index, length) reference selects is readable
      exactly when the reference is a 32-bit integer and, unless it is
      empty, ends inside the table. */
  predicate SliceOk(packed: int, tableLength: nat)
  {
    IsInt32(packed)
    && var (index, length) := ParseArrayIndexAndLength(packed).value;
       length == 0 || index + length <= tableLength
  }

  /** The exception a slice that does not fit raises: struct.error for a
      reference that is not a 32-bit integer, otherwise IndexError at the
      first index past the table. It depends only on the table's length. */
  function SliceFailure(packed: int, tableLength: nat): PyError
  {
    if !IsInt32(packed) then StructError(packed)
    else
      var (index, length) := ParseArrayIndexAndLength(packed).value;
      IndexError(if index < tableLength then tableLength else index)
  }

  /** `[table[i] for i in range(index, index + length)]` for the (index,
      length) packed in `packed`: the very entries of the table, in order. */
  function SliceTable<T>(table: seq<T>, packed: int): (r: Result<seq<T>, PyError>)
    ensures r.Ok? <==> SliceOk(packed, |table|)
    ensures r.Err? ==> r.error == SliceFailure(packed, |table|)
    ensures r.Ok? ==> var (index, length) := ParseArrayIndexAndLength(packed).value;
      && |r.value| == length
      && forall k :: 0 <= k < length ==> r.value[k] == table[index + k]
  {
    var (index, length) :- ParseArrayIndexAndLength(packed);
    if length == 0 then Ok([])
    else if index + length <= |table| then Ok(table[index..index + length])
    else Err(IndexError(if index < |table| then |table| else index))
  }

  /** `EventData(nodeData, cvld)`: its variable links are the slice of the
      consolidated variable-link list selected by OutputVariables. */
  function DecodeEvent(raw: RawEvent, cvld: seq<VariableLink>): (r: Result<NodeRecord, PyError>)
    ensures r.Ok? <==> SliceOk(raw.outputVariables, |cvld|)
    ensures r.Ok? ==> (r.value.EventRecord?
                       && r.value.userData == DecodeEventUserData(raw.userData)
                       && r.value.linkedVariables == raw.outputVariables
                       && r.value.outputLinks == raw.outputLinks)
    ensures r.Ok? ==> var (index, length) := ParseArrayIndexAndLength(raw.outputVariables).value;
      && |r.value.variables| == length
      && forall k :: 0 <= k < length ==> r.value.variables[k] == cvld[index + k]
  {
    var userData := DecodeEventUserData(raw.userData);
    var variables :- SliceTable(cvld, raw.outputVariables);
    Ok(EventRecord(userData, raw.outputVariables, raw.outputLinks, variables))
  }

  /** The class and object of a Behavior string such as "Class'Package.Object'".
      "None" gives "None" for both; otherwise the class is the text before
      the first apostrophe and the object the text between the first and the
      second (or the end); a string with no apostrophe raises IndexError. */
  function SplitBehavior(behavior: string): (r: Result<(string, string), PyError>)
    ensures behavior == "None" ==> r == Ok(("None", "None"))
    ensures behavior != "None" ==> (r.Ok? <==> APOSTROPHE in behavior)
    ensures r.Err? ==> r.error == IndexError(1)
    ensures behavior != "None" && r.Ok? ==>
      var (cls, obj) := r.value;
      && APOSTROPHE !in cls && APOSTROPHE !in obj
      && cls + [APOSTROPHE] + obj <= behavior
      && (|cls| + 1 + |obj| == |behavior| || behavior[|cls| + 1 + |obj|] == APOSTROPHE)
  {
    if behavior == "None" then Ok(("None", "None"))
    else
      var parts := Split(behavior, APOSTROPHE);
      if |parts| < 2 then
        assert behavior == parts[0];
        Err(IndexError(1))
      else
        assert behavior == parts[0] + [APOSTROPHE] + Join(parts[1..], APOSTROPHE);
        assert Join(parts[1..], APOSTROPHE) == parts[1]
            || Join(parts[1..], APOSTROPHE) == parts[1] + [APOSTROPHE] + Join(parts[2..], APOSTROPHE);
        Ok((parts[0], parts[1]))
  }

  /** `BehaviorData(nodeData, cvld)`: class and object split from the
      Behavior string, and its variable links are the slice of the
      consolidated variable-link list selected by LinkedVariables. */
  function DecodeBehavior(raw: RawBehavior, cvld: seq<VariableLink>): (r: Result<NodeRecord, PyError>)
    ensures r.Ok? <==> SplitBehavior(raw.behavior).Ok? && SliceOk(raw.linkedVariables, |cvld|)
    ensures r.Ok? ==> (r.value.BehaviorRecord?
                       && r.value.behavior == raw.behavior
                       && (r.value.behaviorClass, r.value.behaviorObject) == SplitBehavior(raw.behavior).value
                       && r.value.linkedVariables == raw.linkedVariables
                       && r.value.outputLinks == raw.outputLinks)
    ensures r.Ok? ==> var (index, length) := ParseArrayIndexAndLength(raw.linkedVariables).value;
      && |r.value.variables| == length
      && forall k :: 0 <= k < length ==> r.value.variables[k] == cvld[index + k]
  {
    var names :- SplitBehavior(raw.behavior);
    var variables :- SliceTable(cvld, raw.linkedVariables);
    Ok(BehaviorRecord(raw.behavior, names.0, names.1, raw.linkedVariables, raw.outputLinks, variables))
  }
}

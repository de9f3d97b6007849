/** `BehaviorSequence.__init__` of bpdeditor/bpd_classes.py: decoding one raw
    behaviour sequence into its object graph, in the source's fixed order.

    1. the Variable table;
    2. the comma-separated indirection list ConsolidatedLinkedVariables;
    3. the consolidated VariableLinks, resolved through (2) into (1);
    4. the Event and then the Behavior nodes, each taking its slice of (3);
    5. the consolidated OutputLinks, resolved against the Behavior nodes;
    6. when (5) is non-empty, every node in turn, events first, gets its
       slice of (5) appended to its `outputs` list, link by link.

    Stages 1-4 are pure and are the function DecodeTables; stages 5 and 6
    work on the node objects and are done by the method
    DecodeBehaviorSequence and BehaviorSequence.StoreOutputLinks. */
module BpdSequence {
  import opened Wrappers
  import opened PyBuiltins
  import opened PackedFields
  import opened BpdClasses

  datatype RawSequence = RawSequence(
    behaviorSequenceName: string,
    variableData: seq<RawVariable>,
    consolidatedLinkedVariables: string,
    consolidatedVariableLinkData: seq<RawVariableLink>,
    eventData2: seq<RawEvent>,
    behaviorData2: seq<RawBehavior>,
    consolidatedOutputLinkData: seq<RawOutputLink>)

  const COMMA: char := ','

  /** `int(token)`, given as the caller's parser: None stands for ValueError. */
  function ParseToken(token: string, parseInt: string -> Option<int>): (r: Result<int, PyError>)
  {
    match parseInt(token)
    case Some(n) => Ok(n)
    case None => Err(ValueError(token))
  }

  /** `int(field)` succeeds on every field. */
  predicate AllIntegers(fields: seq<string>, parseInt: string -> Option<int>)
  {
    forall k :: 0 <= k < |fields| ==> parseInt(fields[k]).Some?
  }

  /** `[] if text == '' else [int(i) for i in text.split(',')]`: the empty
      text gives the empty list; otherwise one integer per comma-separated
      field, in order. */
  function ParseConsolidatedLinkedVariables(text: string, parseInt: string -> Option<int>)
    : (r: Result<seq<int>, PyError>)
    ensures text == "" ==> r == Ok([])
    ensures text != "" ==>
              var fields := Split(text, COMMA);
              && (r.Ok? <==> AllIntegers(fields, parseInt))
              && (r.Ok? ==> |r.value| == CountOf(text, COMMA) + 1)
              && (r.Ok? ==> forall k :: 0 <= k < |r.value| ==> parseInt(fields[k]) == Some(r.value[k]))
    ensures r.Err? ==> r.error.ValueError?
  {
    if text == "" then Ok([])
    else
      var fields := Split(text, COMMA);
      var parse := token => ParseToken(token, parseInt);
      var r := MapResult(fields, parse);
      assert forall k :: 0 <= k < |fields| ==> parse(fields[k]).Ok? == parseInt(fields[k]).Some?;
      assert r.Ok? <==> AllIntegers(fields, parseInt);
      r
  }

  // ---------------------------------------------------------------------
  // The list comprehensions of stages 1, 3, 4 and 5

  function DecodeVariables(raws: seq<RawVariable>): Result<seq<Variable>, PyError>
  {
    MapResult(raws, DecodeVariable)
  }

  function DecodeVariableLinks(raws: seq<RawVariableLink>, consolidatedList: seq<int>, variableList: seq<Variable>)
    : Result<seq<VariableLink>, PyError>
  {
    MapResult(raws, raw => DecodeVariableLink(raw, consolidatedList, variableList))
  }

  function DecodeEvents(raws: seq<RawEvent>, cvld: seq<VariableLink>): Result<seq<NodeRecord>, PyError>
  {
    MapResult(raws, raw => DecodeEvent(raw, cvld))
  }

  function DecodeBehaviors(raws: seq<RawBehavior>, cvld: seq<VariableLink>): Result<seq<NodeRecord>, PyError>
  {
    MapResult(raws, raw => DecodeBehavior(raw, cvld))
  }

  function DecodeOutputLinks(raws: seq<RawOutputLink>, behaviorList: seq<Node>): Result<seq<OutputLink>, PyError>
  {
    MapResult(raws, raw => DecodeOutputLink(raw, behaviorList))
  }

  /** One consolidated output link decodes against a Behavior list of
      length `behaviorCount`. */
  predicate OutputLinkOk(raw: RawOutputLink, behaviorCount: nat)
  {
    && IsInt32(raw.linkIdAndLinkedBehavior)
    && (behaviorCount == 0 || raw.linkIdAndLinkedBehavior % TWO_16 < behaviorCount)
  }

  /** The exception a link that does not decode raises: struct.error for a
      packed value that is not a 32-bit integer, otherwise IndexError at its
      behaviour index. */
  function OutputLinkFailure(raw: RawOutputLink): PyError
  {
    if !IsInt32(raw.linkIdAndLinkedBehavior) then StructError(raw.linkIdAndLinkedBehavior)
    else IndexError(raw.linkIdAndLinkedBehavior % TWO_16)
  }

  /** Every consolidated output link decodes. */
  predicate OutputLinksOk(raws: seq<RawOutputLink>, behaviorCount: nat)
  {
    forall k :: 0 <= k < |raws| ==> OutputLinkOk(raws[k], behaviorCount)
  }

  /** Stage 5 succeeds exactly when every packed link is a 32-bit integer
      and, if there are Behavior nodes, names one of them; each decoded link
      then targets the Behavior object at its index. */
  lemma OutputLinksDecode(raws: seq<RawOutputLink>, behaviorList: seq<Node>)
    ensures DecodeOutputLinks(raws, behaviorList).Ok? <==> OutputLinksOk(raws, |behaviorList|)
    ensures DecodeOutputLinks(raws, behaviorList).Ok? ==>
      var links := DecodeOutputLinks(raws, behaviorList).value;
      && |links| == |raws|
      && forall k :: 0 <= k < |links| ==>
           && links[k].linkIndex == raws[k].linkIdAndLinkedBehavior % TWO_16
           && links[k].linkId == raws[k].linkIdAndLinkedBehavior / TWO_24
           && (|behaviorList| == 0 ==> links[k].linkedBehavior == None)
           && (|behaviorList| > 0 ==> links[k].linkedBehavior == Some(behaviorList[links[k].linkIndex]))
    ensures DecodeOutputLinks(raws, behaviorList).Err? ==>
      exists k :: (0 <= k < |raws| && !OutputLinkOk(raws[k], |behaviorList|)
                   && DecodeOutputLinks(raws, behaviorList).error == OutputLinkFailure(raws[k])
                   && forall m :: 0 <= m < k ==> OutputLinkOk(raws[m], |behaviorList|))
  {
  }

  // ---------------------------------------------------------------------
  // Stages 1-4

  datatype Tables = Tables(
    name: string,
    variables: seq<Variable>,
    linkedVariables: seq<int>,
    variableLinks: seq<VariableLink>,
    events: seq<NodeRecord>,
    behaviors: seq<NodeRecord>)

  /** The pure stages, each consuming only the tables the earlier ones built:
      the variable links are resolved through the parsed indirection list
      into the parsed variables, and every node slices the consolidated
      variable links. The first exception ends the decoding. */
  function DecodeTables(raw: RawSequence, parseInt: string -> Option<int>): (r: Result<Tables, PyError>)
    ensures r.Ok? ==>
      var t := r.value;
      && t.name == Strip(raw.behaviorSequenceName, QUOTE)
      && |t.variables| == |raw.variableData|
      && (forall k :: 0 <= k < |t.variables| ==> DecodeVariable(raw.variableData[k]) == Ok(t.variables[k]))
      && ParseConsolidatedLinkedVariables(raw.consolidatedLinkedVariables, parseInt) == Ok(t.linkedVariables)
      && |t.variableLinks| == |raw.consolidatedVariableLinkData|
      && (forall k :: 0 <= k < |t.variableLinks| ==>
            DecodeVariableLink(raw.consolidatedVariableLinkData[k], t.linkedVariables, t.variables) == Ok(t.variableLinks[k]))
      && |t.events| == |raw.eventData2|
      && (forall k :: 0 <= k < |t.events| ==> DecodeEvent(raw.eventData2[k], t.variableLinks) == Ok(t.events[k]))
      && |t.behaviors| == |raw.behaviorData2|
      && (forall k :: 0 <= k < |t.behaviors| ==> DecodeBehavior(raw.behaviorData2[k], t.variableLinks) == Ok(t.behaviors[k]))
    ensures r.Err? <==>
      || DecodeVariables(raw.variableData).Err?
      || ParseConsolidatedLinkedVariables(raw.consolidatedLinkedVariables, parseInt).Err?
      || DecodeVariableLinks(raw.consolidatedVariableLinkData,
           ParseConsolidatedLinkedVariables(raw.consolidatedLinkedVariables, parseInt).value,
           DecodeVariables(raw.variableData).value).Err?
      || DecodeEvents(raw.eventData2, DecodeVariableLinks(raw.consolidatedVariableLinkData,
           ParseConsolidatedLinkedVariables(raw.consolidatedLinkedVariables, parseInt).value,
           DecodeVariables(raw.variableData).value).value).Err?
      || DecodeBehaviors(raw.behaviorData2, DecodeVariableLinks(raw.consolidatedVariableLinkData,
           ParseConsolidatedLinkedVariables(raw.consolidatedLinkedVariables, parseInt).value,
           DecodeVariables(raw.variableData).value).value).Err?
  {
    var name := Strip(raw.behaviorSequenceName, QUOTE);
    var variables :- DecodeVariables(raw.variableData);
    var linkedVariables :- ParseConsolidatedLinkedVariables(raw.consolidatedLinkedVariables, parseInt);
    var variableLinks :- DecodeVariableLinks(raw.consolidatedVariableLinkData, linkedVariables, variables);
    var events :- DecodeEvents(raw.eventData2, variableLinks);
    var behaviors :- DecodeBehaviors(raw.behaviorData2, variableLinks);
    Ok(Tables(name, variables, linkedVariables, variableLinks, events, behaviors))
  }

  /** The records the nodes were built from. */
  function Records(nodes: seq<Node>): (records: seq<NodeRecord>)
    ensures |records| == |nodes|
    ensures forall k :: 0 <= k < |nodes| ==> records[k] == nodes[k].record
  {
    seq(|nodes|, k requires 0 <= k < |nodes| => nodes[k].record)
  }

  /** Every record's OutputLinks reference selects a range of a table of
      `tableLength` entries. */
  predicate SlicesOk(records: seq<NodeRecord>, tableLength: nat)
  {
    forall k :: 0 <= k < |records| ==> SliceOk(records[k].outputLinks, tableLength)
  }

  /** The output links a node ends up with: none when the consolidated list
      is empty, otherwise the very entries its (index, length) selects, in
      order. */
  function ExpectedOutputs(record: NodeRecord, outputLinks: seq<OutputLink>): (outs: seq<OutputLink>)
    requires |outputLinks| == 0 || SliceOk(record.outputLinks, |outputLinks|)
    ensures |outputLinks| == 0 ==> outs == []
    ensures |outputLinks| > 0 ==>
      var (index, length) := ParseArrayIndexAndLength(record.outputLinks).value;
      && |outs| == length
      && forall k :: 0 <= k < length ==> outs[k] == outputLinks[index + k]
  {
    if |outputLinks| == 0 then [] else SliceTable(outputLinks, record.outputLinks).value
  }

  /** A decoded sequence. Its tables do not change after decoding; the
      nodes' output lists are filled in place by StoreOutputLinks. */
  class BehaviorSequence {
    const name: string
    const variableData: seq<Variable>
    const consolidatedLinkedVariables: seq<int>
    const consolidatedVariableLinkData: seq<VariableLink>
    const eventData2: seq<Node>
    const behaviorData2: seq<Node>
    const consolidatedOutputLinkData: seq<OutputLink>

    constructor (t: Tables, events: seq<Node>, behaviors: seq<Node>, outputLinks: seq<OutputLink>)
      ensures name == t.name && variableData == t.variables
      ensures consolidatedLinkedVariables == t.linkedVariables && consolidatedVariableLinkData == t.variableLinks
      ensures eventData2 == events && behaviorData2 == behaviors && consolidatedOutputLinkData == outputLinks
    {
      name := t.name;
      variableData := t.variables;
      consolidatedLinkedVariables := t.linkedVariables;
      consolidatedVariableLinkData := t.variableLinks;
      eventData2 := events;
      behaviorData2 := behaviors;
      consolidatedOutputLinkData := outputLinks;
    }

    /** `self.EventData2 + self.BehaviorData2` */
    function Nodes(): seq<Node>
    {
      eventData2 + behaviorData2
    }

    function NodeSet(): set<Node>
    {
      set k | 0 <= k < |Nodes()| :: Nodes()[k]
    }

    /** No node object occurs twice among the events and behaviours. */
    ghost predicate Distinct()
    {
      forall a, b :: 0 <= a < b < |Nodes()| ==> Nodes()[a] != Nodes()[b]
    }

    /** Stage 6. When the consolidated output-link list is non-empty, each
        node in turn (events, then behaviours) appends the entries its
        OutputLinks reference selects, one at a time; a reference that is
        not a 32-bit integer, or a range that runs past the list, stops the
        decoding. When the list is empty nothing is touched. */
    method StoreOutputLinks() returns (r: Outcome<PyError>)
      requires Distinct()
      requires forall k :: 0 <= k < |Nodes()| ==> Nodes()[k].outputs == []
      modifies NodeSet()
      ensures r.Pass? <==> |consolidatedOutputLinkData| == 0
                           || SlicesOk(Records(Nodes()), |consolidatedOutputLinkData|)
      ensures r.Pass? ==> forall k :: 0 <= k < |Nodes()| ==>
                Nodes()[k].outputs == ExpectedOutputs(Nodes()[k].record, consolidatedOutputLinkData)
      ensures r.Fail? ==> exists k :: (0 <= k < |Nodes()|
                && SliceTable(consolidatedOutputLinkData, Nodes()[k].record.outputLinks) == Err(r.error)
                && forall m :: 0 <= m < k ==> SliceOk(Nodes()[m].record.outputLinks, |consolidatedOutputLinkData|))
    {
      var links := consolidatedOutputLinkData;
      var nodes := Nodes();
      if |links| > 0 {
        var i := 0;
        while i < |nodes|
          invariant 0 <= i <= |nodes|
          invariant forall k :: 0 <= k < i ==> SliceOk(nodes[k].record.outputLinks, |links|)
          invariant forall k :: 0 <= k < i ==> nodes[k].outputs == ExpectedOutputs(nodes[k].record, links)
          invariant forall k :: i <= k < |nodes| ==> nodes[k].outputs == []
        {
          var filled := FillOutputs(nodes[i]);
          if filled.Fail? {
            r := filled;
            return;
          }
          i := i + 1;
        }
      }
      r := Pass;
    }

    /** The inner loop of stage 6 for one node: the entries its OutputLinks
        reference selects are appended one at a time, and the first index
        past the list stops the decoding. */
    method FillOutputs(node: Node) returns (r: Outcome<PyError>)
      requires |consolidatedOutputLinkData| > 0
      requires node.outputs == []
      modifies node
      ensures r.Pass? <==> SliceOk(node.record.outputLinks, |consolidatedOutputLinkData|)
      ensures r.Pass? ==> node.outputs == ExpectedOutputs(node.record, consolidatedOutputLinkData)
      ensures r.Fail? ==> SliceTable(consolidatedOutputLinkData, node.record.outputLinks) == Err(r.error)
    {
      var links := consolidatedOutputLinkData;
      var packed := ParseArrayIndexAndLength(node.record.outputLinks);
      if packed.Err? {
        r := Fail(packed.error);
        return;
      }
      var (index, length) := packed.value;
      var j := index;
      while j < index + length
        invariant index <= j <= index + length
        invariant j == index || j <= |links|
        invariant |node.outputs| == j - index
        invariant forall m :: 0 <= m < j - index ==> node.outputs[m] == links[index + m]
      {
        if j >= |links| {
          r := Fail(IndexError(j));
          return;
        }
        node.outputs := node.outputs + [links[j]];
        j := j + 1;
      }
      r := Pass;
    }

    /** The object graph this sequence is: the tables DecodeTables builds,
        one fresh node per record, the output links resolved against these
        Behavior nodes, and every node holding its slice of them. */
    ghost predicate Decodes(raw: RawSequence, t: Tables)
      reads NodeSet()
    {
      && name == t.name
      && variableData == t.variables
      && consolidatedLinkedVariables == t.linkedVariables
      && consolidatedVariableLinkData == t.variableLinks
      && Records(eventData2) == t.events
      && Records(behaviorData2) == t.behaviors
      && DecodeOutputLinks(raw.consolidatedOutputLinkData, behaviorData2) == Ok(consolidatedOutputLinkData)
      && Distinct()
      && (|consolidatedOutputLinkData| == 0 || SlicesOk(Records(Nodes()), |consolidatedOutputLinkData|))
      && forall k :: 0 <= k < |Nodes()| ==>
           Nodes()[k].outputs == ExpectedOutputs(Nodes()[k].record, consolidatedOutputLinkData)
    }
  }

  /** Every stage succeeds. */
  ghost predicate Decodable(raw: RawSequence, parseInt: string -> Option<int>)
  {
    && DecodeTables(raw, parseInt).Ok?
    && var t := DecodeTables(raw, parseInt).value;
       && OutputLinksOk(raw.consolidatedOutputLinkData, |t.behaviors|)
       && (|raw.consolidatedOutputLinkData| == 0
           || SlicesOk(t.events + t.behaviors, |raw.consolidatedOutputLinkData|))
  }

  /** One fresh node per record, in order, each with no output links yet. */
  method NewNodes(records: seq<NodeRecord>) returns (nodes: seq<Node>)
    ensures |nodes| == |records|
    ensures Records(nodes) == records
    ensures forall k :: 0 <= k < |nodes| ==> nodes[k].outputs == []
    ensures forall k :: 0 <= k < |nodes| ==> fresh(nodes[k])
    ensures forall a, b :: 0 <= a < b < |nodes| ==> nodes[a] != nodes[b]
  {
    nodes := [];
    for k := 0 to |records|
      invariant |nodes| == k
      invariant forall m :: 0 <= m < k ==> nodes[m].record == records[m] && nodes[m].outputs == []
      invariant forall m :: 0 <= m < k ==> fresh(nodes[m])
      invariant forall a, b :: 0 <= a < b < k ==> nodes[a] != nodes[b]
    {
      var node := new Node(records[k]);
      nodes := nodes + [node];
    }
  }

  /** Stages 5 and 6, given the decoded tables and one fresh node per
      record: the output links are resolved against the Behavior nodes,
      the sequence is built, and every node receives its output links. */
  method LinkNodes(raw: RawSequence, t: Tables, events: seq<Node>, behaviors: seq<Node>)
    returns (r: Result<BehaviorSequence, PyError>)
    requires Records(events) == t.events && Records(behaviors) == t.behaviors
    requires forall k :: 0 <= k < |events + behaviors| ==> (events + behaviors)[k].outputs == []
    requires forall a, b :: 0 <= a < b < |events + behaviors| ==> (events + behaviors)[a] != (events + behaviors)[b]
    modifies set k | 0 <= k < |events + behaviors| :: (events + behaviors)[k]
    ensures r.Ok? <==> && OutputLinksOk(raw.consolidatedOutputLinkData, |t.behaviors|)
                       && (|raw.consolidatedOutputLinkData| == 0
                           || SlicesOk(t.events + t.behaviors, |raw.consolidatedOutputLinkData|))
    ensures var links := raw.consolidatedOutputLinkData;
      !OutputLinksOk(links, |t.behaviors|) ==>
        exists k :: (0 <= k < |links| && !OutputLinkOk(links[k], |t.behaviors|)
                     && r == Err(OutputLinkFailure(links[k]))
                     && forall m :: 0 <= m < k ==> OutputLinkOk(links[m], |t.behaviors|))
    ensures var links := raw.consolidatedOutputLinkData;
      var records := t.events + t.behaviors;
      OutputLinksOk(links, |t.behaviors|) && |links| > 0 && !SlicesOk(records, |links|) ==>
        exists k :: (0 <= k < |records| && !SliceOk(records[k].outputLinks, |links|)
                     && r == Err(SliceFailure(records[k].outputLinks, |links|))
                     && forall m :: 0 <= m < k ==> SliceOk(records[m].outputLinks, |links|))
    ensures r.Ok? ==> fresh(r.value) && r.value.Nodes() == events + behaviors && r.value.Decodes(raw, t)
  {
    var outputLinks := DecodeOutputLinks(raw.consolidatedOutputLinkData, behaviors);
    OutputLinksDecode(raw.consolidatedOutputLinkData, behaviors);
    if outputLinks.Err? {
      r := Err(outputLinks.error);
      return;
    }

    var s := new BehaviorSequence(t, events, behaviors, outputLinks.value);
    assert s.Nodes() == events + behaviors;
    assert Records(s.Nodes()) == t.events + t.behaviors;
    var stored := s.StoreOutputLinks();
    if stored.Fail? {
      r := Err(stored.error);
      ghost var records := t.events + t.behaviors;
      ghost var k :| 0 <= k < |s.Nodes()|
                     && SliceTable(outputLinks.value, s.Nodes()[k].record.outputLinks) == Err(stored.error)
                     && forall m :: 0 <= m < k ==> SliceOk(s.Nodes()[m].record.outputLinks, |outputLinks.value|);
      assert records[k] == s.Nodes()[k].record;
      return;
    }
    r := Ok(s);
  }

  /** `BehaviorSequence(seq)`: the decoded sequence when every stage
      succeeds, and otherwise the exception of the first stage that fails. */
  method DecodeBehaviorSequence(raw: RawSequence, parseInt: string -> Option<int>)
    returns (r: Result<BehaviorSequence, PyError>)
    ensures r.Ok? <==> Decodable(raw, parseInt)
    ensures DecodeTables(raw, parseInt).Err? ==> r == Err(DecodeTables(raw, parseInt).error)
    ensures r.Ok? ==> fresh(r.value) && (forall k :: 0 <= k < |r.value.Nodes()| ==> fresh(r.value.Nodes()[k]))
    ensures r.Ok? ==> r.value.Decodes(raw, DecodeTables(raw, parseInt).value)
    ensures DecodeTables(raw, parseInt).Ok? ==>
      var t := DecodeTables(raw, parseInt).value;
      var links := raw.consolidatedOutputLinkData;
      !OutputLinksOk(links, |t.behaviors|) ==>
        exists k :: (0 <= k < |links| && !OutputLinkOk(links[k], |t.behaviors|)
                     && r == Err(OutputLinkFailure(links[k]))
                     && forall m :: 0 <= m < k ==> OutputLinkOk(links[m], |t.behaviors|))
    ensures DecodeTables(raw, parseInt).Ok? ==>
      var t := DecodeTables(raw, parseInt).value;
      var links := raw.consolidatedOutputLinkData;
      var records := t.events + t.behaviors;
      OutputLinksOk(links, |t.behaviors|) && |links| > 0 && !SlicesOk(records, |links|) ==>
        exists k :: (0 <= k < |records| && !SliceOk(records[k].outputLinks, |links|)
                     && r == Err(SliceFailure(records[k].outputLinks, |links|))
                     && forall m :: 0 <= m < k ==> SliceOk(records[m].outputLinks, |links|))
  {
    var tables := DecodeTables(raw, parseInt);
    if tables.Err? {
      r := Err(tables.error);
      return;
    }
    var t := tables.value;

    var events := NewNodes(t.events);
    var behaviors := NewNodes(t.behaviors);
    assert forall k :: 0 <= k < |events + behaviors| ==> fresh((events + behaviors)[k]);
    r := LinkNodes(raw, t, events, behaviors);
  }

  /** Every output link a node holds targets one of this sequence's own
      Behavior nodes (or nothing): the decoded graph is closed. */
  lemma OutputTargetsAreOwnBehaviors(s: BehaviorSequence, raw: RawSequence, t: Tables)
    requires s.Decodes(raw, t)
    ensures forall k, m :: 0 <= k < |s.Nodes()| && 0 <= m < |s.Nodes()[k].outputs| ==>
              var target := s.Nodes()[k].outputs[m].linkedBehavior;
              target.Some? ==> target.value in s.behaviorData2
  {
    OutputLinksDecode(raw.consolidatedOutputLinkData, s.behaviorData2);
  }
}

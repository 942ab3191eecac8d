/**
 * The custom validators applied to generated n8n workflows: presence of the
 * required top-level keys, integrity of the connection table, and the rule
 * for OpenAI nodes.
 */
module WorkflowValidators {
  import opened Wrappers
  import TextToWorkflow

  /**
   * A parameter value: only strings are compared by the validators, so every
   * other value, `undefined` included, is `OtherValue`; its key still counts
   * as present, as it does for `hasOwnProperty`.
   */
  datatype ParamValue = Text(text: string) | OtherValue

  /** A workflow node as the validators read it; `None` is an absent property. */
  datatype Node = Node(id: Option<string>, nodeType: string, parameters: Option<map<string, ParamValue>>)

  /** One entry of an output list: `{ node: <target id> }`. */
  datatype Target = Target(node: Option<string>)

  /** `connections`: source id to output key to the list of targets. */
  type Connections = map<string, map<string, seq<Target>>>

  /**
   * The top-level properties of a workflow object that the validators look at;
   * `None` is a key the object does not have, which is what `hasOwnProperty`
   * tests, and a key that is present always holds a value of the field's type.
   */
  datatype Workflow = Workflow(
    name: Option<string>,
    nodes: Option<seq<Node>>,
    connections: Option<Connections>)

  /** What a validator call does: return a boolean, or throw a `TypeError` on a missing property. */
  datatype Verdict = Returns(ok: bool) | ThrowsTypeError

  // ---------------------------------------------------------------------
  // validateWorkflowStructure
  // ---------------------------------------------------------------------

  /** `validateWorkflowStructure`: the workflow has `name`, `nodes` and `connections` properties. */
  function ValidateWorkflowStructure(workflow: Workflow): (ok: bool)
    ensures ok <==> workflow.name.Some? && workflow.nodes.Some? && workflow.connections.Some?
  {
    workflow.name.Some? && workflow.nodes.Some? && workflow.connections.Some?
  }

  /** Only the presence of the three properties matters, never their values. */
  lemma StructureIgnoresValues(w1: Workflow, w2: Workflow)
    requires w1.name.Some? == w2.name.Some?
    requires w1.nodes.Some? == w2.nodes.Some?
    requires w1.connections.Some? == w2.connections.Some?
    ensures ValidateWorkflowStructure(w1) == ValidateWorkflowStructure(w2)
  {
  }

  // ---------------------------------------------------------------------
  // validateConnections
  // ---------------------------------------------------------------------

  /** `nodes.map(node => node.id)`. */
  function NodeIds(nodes: seq<Node>): (ids: seq<Option<string>>)
    ensures |ids| == |nodes|
    ensures forall i :: 0 <= i < |nodes| ==> ids[i] == nodes[i].id
  {
    if nodes == [] then [] else [nodes[0].id] + NodeIds(nodes[1..])
  }

  /** Every target in every output list of one source is a known id. */
  predicate TargetsKnown(ids: seq<Option<string>>, outputs: map<string, seq<Target>>) {
    forall key, i :: key in outputs && 0 <= i < |outputs[key]| ==> outputs[key][i].node in ids
  }

  /** Every source key is a known id and every target of every source is a known id. */
  predicate ConnectionsIntact(ids: seq<Option<string>>, connections: Connections) {
    forall source :: source in connections ==> Some(source) in ids && TargetsKnown(ids, connections[source])
  }

  /** `workflow.connections`, where iterating over an absent value visits nothing. */
  function ConnectionsOf(workflow: Workflow): (c: Connections)
    ensures workflow.connections.Some? ==> c == workflow.connections.value
    ensures workflow.connections.None? ==> c == map[]
  {
    match workflow.connections
    case Some(c) => c
    case None => map[]
  }

  /**
   * `validateConnections`: the loops return `false` at the first source or
   * target that is not a node id, and `true` when none is found. Without
   * `nodes` the call throws.
   */
  method ValidateConnections(workflow: Workflow) returns (v: Verdict)
    ensures workflow.nodes.None? ==> v == ThrowsTypeError
    ensures workflow.nodes.Some? ==>
              v == Returns(ConnectionsIntact(NodeIds(workflow.nodes.value), ConnectionsOf(workflow)))
  {
    if workflow.nodes.None? {
      return ThrowsTypeError;
    }
    var nodeIds := NodeIds(workflow.nodes.value);
    var connections := ConnectionsOf(workflow);
    var sources := connections.Keys;
    while sources != {}
      invariant sources <= connections.Keys
      invariant forall s :: s in connections && s !in sources ==>
                  Some(s) in nodeIds && TargetsKnown(nodeIds, connections[s])
      decreases sources
    {
      var source :| source in sources;
      if Some(source) !in nodeIds {
        return Returns(false);
      }
      var outputs := connections[source];
      var keys := outputs.Keys;
      while keys != {}
        invariant keys <= outputs.Keys
        invariant forall k, i :: k in outputs && k !in keys && 0 <= i < |outputs[k]| ==> outputs[k][i].node in nodeIds
        decreases keys
      {
        var key :| key in keys;
        var targets := outputs[key];
        var i := 0;
        while i < |targets|
          invariant 0 <= i <= |targets|
          invariant forall j :: 0 <= j < i ==> targets[j].node in nodeIds
        {
          if targets[i].node !in nodeIds {
            assert !TargetsKnown(nodeIds, outputs);
            return Returns(false);
          }
          i := i + 1;
        }
        keys := keys - {key};
      }
      sources := sources - {source};
    }
    return Returns(true);
  }

  /** A workflow without connections passes, whatever its nodes. */
  lemma EmptyConnectionsIntact(ids: seq<Option<string>>)
    ensures ConnectionsIntact(ids, map[])
  {
  }

  /** Every id listed before is still listed after. */
  predicate IdsIncluded(before: seq<Option<string>>, after: seq<Option<string>>) {
    forall x :: x in before ==> x in after
  }

  /** Connections that pass against some ids pass against any list containing them. */
  lemma IntactUnderMoreIds(before: seq<Option<string>>, after: seq<Option<string>>, connections: Connections)
    requires IdsIncluded(before, after)
    requires ConnectionsIntact(before, connections)
    ensures ConnectionsIntact(after, connections)
  {
    forall source | source in connections
      ensures Some(source) in after && TargetsKnown(after, connections[source])
    {
      var outputs := connections[source];
      assert TargetsKnown(before, outputs);
      forall key, i | key in outputs && 0 <= i < |outputs[key]|
        ensures outputs[key][i].node in after
      {
        assert outputs[key][i].node in before;
      }
    }
  }

  /** Appending nodes keeps every id listed before. */
  lemma AppendedIdsIncluded(nodes: seq<Node>, extra: seq<Node>)
    ensures IdsIncluded(NodeIds(nodes), NodeIds(nodes + extra))
  {
    var before, after := NodeIds(nodes), NodeIds(nodes + extra);
    forall x | x in before ensures x in after {
      var i :| 0 <= i < |before| && before[i] == x;
      assert after[i] == (nodes + extra)[i].id;
    }
  }

  /** Adding nodes never turns a passing connection table into a failing one. */
  lemma MoreNodesStayIntact(nodes: seq<Node>, extra: seq<Node>, connections: Connections)
    requires ConnectionsIntact(NodeIds(nodes), connections)
    ensures ConnectionsIntact(NodeIds(nodes + extra), connections)
  {
    AppendedIdsIncluded(nodes, extra);
    IntactUnderMoreIds(NodeIds(nodes), NodeIds(nodes + extra), connections);
  }

  /** The verdict depends only on which ids are listed, not on their order or repetition. */
  lemma OnlyIdSetMatters(ids1: seq<Option<string>>, ids2: seq<Option<string>>, connections: Connections)
    requires IdsIncluded(ids1, ids2) && IdsIncluded(ids2, ids1)
    ensures ConnectionsIntact(ids1, connections) == ConnectionsIntact(ids2, connections)
  {
    if ConnectionsIntact(ids1, connections) {
      IntactUnderMoreIds(ids1, ids2, connections);
    }
    if ConnectionsIntact(ids2, connections) {
      IntactUnderMoreIds(ids2, ids1, connections);
    }
  }

  /** The table with `target` appended to the output list `key` of `source`. */
  function AddConnection(connections: Connections, source: string, key: string, target: Target): (r: Connections)
    ensures source in r && key in r[source] && |r[source][key]| >= 1
    ensures r[source][key][|r[source][key]| - 1] == target
  {
    var outputs := if source in connections then connections[source] else map[];
    var targets := if key in outputs then outputs[key] else [];
    connections[source := outputs[key := targets + [target]]]
  }

  /** A connection to an id that is not among the nodes makes the table fail. */
  lemma DanglingTargetBreaks(ids: seq<Option<string>>, connections: Connections, source: string, key: string, target: Target)
    requires target.node !in ids
    ensures !ConnectionsIntact(ids, AddConnection(connections, source, key, target))
  {
    var r: Connections := AddConnection(connections, source, key, target);
    var last := |r[source][key]| - 1;
    assert r[source][key][last].node !in ids;
    assert !TargetsKnown(ids, r[source]);
  }

  // ---------------------------------------------------------------------
  // validateOpenAINode
  // ---------------------------------------------------------------------

  /** The node type the OpenAI rule applies to. */
  const OpenAiNodeType := "n8n-nodes-base.openAi"

  /** The parameters an OpenAI node must carry. */
  const OpenAiRequiredFields: seq<string> := ["model", "prompt"]

  /** An OpenAI node whose `resource` parameter is the string `completion`. */
  predicate UsesCompletionResource(parameters: map<string, ParamValue>) {
    "resource" in parameters && parameters["resource"] == Text("completion")
  }

  /**
   * `validateOpenAINode`: other node types always pass; an OpenAI node fails
   * with the `completion` resource and otherwise passes exactly when it has
   * both `model` and `prompt`. Reading the parameters of an OpenAI node
   * without them throws.
   */
  function ValidateOpenAINode(node: Node): (v: Verdict)
    ensures node.nodeType != OpenAiNodeType ==> v == Returns(true)
    ensures node.nodeType == OpenAiNodeType && node.parameters.None? ==> v == ThrowsTypeError
    ensures node.nodeType == OpenAiNodeType && node.parameters.Some? ==>
              v == Returns(!UsesCompletionResource(node.parameters.value)
                           && forall f :: f in OpenAiRequiredFields ==> f in node.parameters.value)
  {
    if node.nodeType == OpenAiNodeType then
      match node.parameters
      case None => ThrowsTypeError
      case Some(parameters) =>
        if UsesCompletionResource(parameters) then Returns(false)
        else Returns("model" in parameters && "prompt" in parameters)
    else Returns(true)
  }

  /** `nodeConfigurations.openai.defaultParameters`; the float temperature is kept opaque. */
  const OpenAiDefaultParameters: map<string, ParamValue> := map[
    "resource" := Text("complete"),
    "model" := Text("gpt-3.5-turbo"),
    "maxTokens" := OtherValue,
    "temperature" := OtherValue
  ]

  /**
   * The configured OpenAI defaults alone fail the rule, since they carry no
   * prompt; adding a prompt makes them pass, since `complete` is not the
   * rejected `completion`.
   */
  lemma OpenAiDefaultsNeedPrompt(id: Option<string>, prompt: ParamValue)
    ensures ValidateOpenAINode(Node(id, OpenAiNodeType, Some(OpenAiDefaultParameters))) == Returns(false)
    ensures ValidateOpenAINode(Node(id, OpenAiNodeType, Some(OpenAiDefaultParameters["prompt" := prompt])))
            == Returns(true)
  {
    assert "prompt" !in OpenAiDefaultParameters;
  }

  /**
   * Of the action node types the text-to-workflow tables can produce, only
   * the `openai` one is subject to the OpenAI rule; every other one passes it
   * whatever its parameters.
   */
  lemma OnlyOpenAiActionIsChecked(id: Option<string>, parameters: Option<map<string, ParamValue>>)
    ensures TextToWorkflow.ActionNodeTypes["openai"] == OpenAiNodeType
    ensures forall k :: k in TextToWorkflow.ActionNodeTypes && k != "openai" ==>
              ValidateOpenAINode(Node(id, TextToWorkflow.ActionNodeTypes[k], parameters)) == Returns(true)
  {
  }

  /** `workflowGeneration.defaultStructure`: an empty, named-but-blank workflow. */
  const DefaultStructure := Workflow(Some(""), Some([]), Some(map[]))

  /** The default workflow skeleton passes the structure check and has intact connections. */
  lemma DefaultStructureValid()
    ensures ValidateWorkflowStructure(DefaultStructure)
    ensures ConnectionsIntact(NodeIds(DefaultStructure.nodes.value), ConnectionsOf(DefaultStructure))
  {
  }
}

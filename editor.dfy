/** The flow editor's bookkeeping: the selection, the loaded flow's node and
  * connector lists, and the propagation of global outputs to unconnected
  * inputs. Nodes, ports and connectors are values here: one is identified by
  * its contents, which stand for the object identity the editor compares. */
module Editor {
  import opened Base
  import opened Lists

  /** One end of a connector: a port, by its id, its node's id and its name. */
  datatype PortRef = PortRef(id: string, nodeId: string, name: string)

  datatype EConnector = EConnector(origin: PortRef, destination: PortRef)

  /** A node's input or output as the editor holds it. */
  datatype EPort = EPort(id: string, name: string, portType: Option<string>, global: bool, connectors: seq<EConnector>)

  datatype ENode = ENode(id: string, inputs: seq<EPort>, outputs: seq<EPort>)

  /** What can be selected. */
  datatype Item = NodeItem(node: ENode) | ConnectorItem(connector: EConnector)

  datatype EventType = MouseDown | MouseUp | OtherEvent

  datatype MouseEvent = MouseEvent(button: int, ctrlKey: bool, eventType: EventType)

  /** A DOM element as `isInputElement` inspects it. */
  datatype Element = Element(classList: seq<string>, nodeName: string)

  const InputElementNames: seq<string> := ["INPUT", "BUTTON", "SELECT", "TEXTAREA"]

  /** `XibleEditor.isInputElement(el)`: a missing element counts as one. */
  function IsInputElement(el: Option<Element>): (r: bool)
    ensures el.None? ==> r
    ensures el.Some? ==> (r <==> "content" in el.value.classList || el.value.nodeName in InputElementNames)
  {
    match el
    case None => true
    case Some(e) => "content" in e.classList || IndexOf(InputElementNames, e.nodeName) > -1
  }

  /** The selection after `toggleSelectionOnMouseEvent`, row by row. */
  function Toggled(selection: seq<Item>, event: MouseEvent, obj: Item, dragFired: bool): seq<Item> {
    var selected := obj in selection;
    if event.button == 1 then selection
    else if !event.ctrlKey && event.eventType == MouseDown && !selected then [obj]
    else if event.ctrlKey && event.eventType == MouseUp && !selected && !dragFired then selection + [obj]
    else if !event.ctrlKey && event.eventType == MouseUp && selected && !dragFired then [obj]
    else if event.ctrlKey && event.eventType == MouseUp && selected && !dragFired then RemoveFirst(selection, obj)
    else selection
  }

  /** The decision table of `toggleSelectionOnMouseEvent`, one clause per
    * row; together the rows cover every event. In every row the selection
    * stays free of duplicates. */
  lemma ToggleTable(selection: seq<Item>, event: MouseEvent, obj: Item, dragFired: bool)
    requires NoDup(selection)
    ensures var r := Toggled(selection, event, obj, dragFired);
      && NoDup(r)
      && (event.button == 1 ==> r == selection)
      && (event.button != 1 && event.eventType == MouseDown && !event.ctrlKey && obj !in selection ==> r == [obj])
      && (event.button != 1 && event.eventType == MouseDown && (event.ctrlKey || obj in selection) ==> r == selection)
      && (event.button != 1 && event.eventType == MouseUp && event.ctrlKey && obj !in selection && !dragFired ==>
            r == selection + [obj])
      && (event.button != 1 && event.eventType == MouseUp && !event.ctrlKey && obj in selection && !dragFired ==>
            r == [obj])
      && (event.eventType == MouseUp && !event.ctrlKey && obj !in selection ==> r == selection)
      && (event.button != 1 && event.eventType == MouseUp && event.ctrlKey && obj in selection && !dragFired ==>
            obj !in r && multiset(r) == multiset(selection) - multiset{obj})
      && (event.eventType == OtherEvent ==> r == selection)
      && (dragFired && event.eventType == MouseUp ==> r == selection)
  {
    var r := Toggled(selection, event, obj, dragFired);
    if r == selection + [obj] {
      AppendAbsent(selection, obj);
    }
  }

  /** Appending an absent element keeps a list free of duplicates. */
  lemma AppendAbsent<T>(s: seq<T>, x: T)
    requires NoDup(s) && x !in s
    ensures NoDup(s + [x])
  {
    forall i, j | 0 <= i < j < |s + [x]| ensures (s + [x])[i] != (s + [x])[j] {
      if j == |s| {
        assert (s + [x])[i] == s[i];
      }
    }
  }

  /** `setGlobal` on an input when a global output of some type is set:
    * only inputs of that type without connectors take the output's flag. */
  function GlobalFrom(input: EPort, output: EPort): (r: EPort)
    ensures r.(global := input.global) == input
    ensures input.portType == output.portType && input.connectors == [] ==> r.global == output.global
    ensures r != input ==> input.portType == output.portType && input.connectors == []
  {
    if input.portType == output.portType && |input.connectors| == 0 then input.(global := output.global) else input
  }

  /** The types of the global outputs of `nodes`, node by node, output by output. */
  function GlobalTypes(nodes: seq<ENode>): (r: seq<Option<string>>)
  {
    if nodes == [] then []
    else GlobalTypes(nodes[..|nodes| - 1]) + OutputTypes(nodes[|nodes| - 1].outputs)
  }

  /** The types of the global ones among `outputs`. */
  function OutputTypes(outputs: seq<EPort>): (r: seq<Option<string>>)
  {
    if outputs == [] then []
    else
      var o := outputs[|outputs| - 1];
      OutputTypes(outputs[..|outputs| - 1]) + (if o.global then [o.portType] else [])
  }

  /** Some output among `outputs` is global and of type `t`. */
  predicate HasGlobalOutput(outputs: seq<EPort>, t: Option<string>) {
    exists j :: 0 <= j < |outputs| && outputs[j].global && outputs[j].portType == t
  }

  /** Some node of `nodes` has a global output of type `t`. */
  predicate FlowHasGlobal(nodes: seq<ENode>, t: Option<string>) {
    exists i :: 0 <= i < |nodes| && HasGlobalOutput(nodes[i].outputs, t)
  }

  lemma HasGlobalOutputSnoc(outputs: seq<EPort>, t: Option<string>)
    requires outputs != []
    ensures HasGlobalOutput(outputs, t) <==>
      HasGlobalOutput(outputs[..|outputs| - 1], t) || (outputs[|outputs| - 1].global && outputs[|outputs| - 1].portType == t)
  {
    var init := outputs[..|outputs| - 1];
    if HasGlobalOutput(init, t) {
      var j :| 0 <= j < |init| && init[j].global && init[j].portType == t;
      assert outputs[j] == init[j];
    }
    if HasGlobalOutput(outputs, t) {
      var j :| 0 <= j < |outputs| && outputs[j].global && outputs[j].portType == t;
      if j < |init| {
        assert init[j] == outputs[j];
      }
    }
  }

  lemma FlowHasGlobalSnoc(nodes: seq<ENode>, t: Option<string>)
    requires nodes != []
    ensures FlowHasGlobal(nodes, t) <==>
      FlowHasGlobal(nodes[..|nodes| - 1], t) || HasGlobalOutput(nodes[|nodes| - 1].outputs, t)
  {
    var init := nodes[..|nodes| - 1];
    if FlowHasGlobal(init, t) {
      var i :| 0 <= i < |init| && HasGlobalOutput(init[i].outputs, t);
      assert nodes[i] == init[i];
    }
    if FlowHasGlobal(nodes, t) {
      var i :| 0 <= i < |nodes| && HasGlobalOutput(nodes[i].outputs, t);
      if i < |init| {
        assert init[i] == nodes[i];
      }
    }
  }

  /** A type is among one node's global types exactly when one of its global
    * outputs has it. */
  lemma {:induction false} OutputTypesSpec(outputs: seq<EPort>, t: Option<string>)
    ensures t in OutputTypes(outputs) <==> HasGlobalOutput(outputs, t)
  {
    if outputs != [] {
      OutputTypesSpec(outputs[..|outputs| - 1], t);
      HasGlobalOutputSnoc(outputs, t);
    }
  }

  /** A type is global in a flow exactly when some node of it has a global
    * output of that type. */
  lemma {:induction false} GlobalTypesSpec(nodes: seq<ENode>, t: Option<string>)
    ensures t in GlobalTypes(nodes) <==> FlowHasGlobal(nodes, t)
  {
    if nodes != [] {
      GlobalTypesSpec(nodes[..|nodes| - 1], t);
      OutputTypesSpec(nodes[|nodes| - 1].outputs, t);
      FlowHasGlobalSnoc(nodes, t);
    }
  }

  /** `setGlobalFromOutput(flow, output)` on the inputs of one node. */
  method SetGlobalOnInputs(inputs: seq<EPort>, output: EPort) returns (r: seq<EPort>)
    ensures |r| == |inputs|
    ensures forall j :: 0 <= j < |inputs| ==> r[j] == GlobalFrom(inputs[j], output)
  {
    r := [];
    var j := 0;
    while j < |inputs|
      invariant 0 <= j <= |inputs|
      invariant |r| == j
      invariant forall k :: 0 <= k < j ==> r[k] == GlobalFrom(inputs[k], output)
    {
      var input := inputs[j];
      if input.portType == output.portType && |input.connectors| == 0 {
        input := input.(global := output.global);
      }
      r := r + [input];
      j := j + 1;
    }
  }

  /** `setGlobalFromOutput(flow, output)`: over every node of the flow, every
    * input of the output's type without connectors takes the output's
    * `global` flag; nothing else changes. */
  method SetGlobalFromOutput(nodes: seq<ENode>, output: EPort) returns (r: seq<ENode>)
    ensures |r| == |nodes|
    ensures forall i :: 0 <= i < |nodes| ==>
      && r[i].id == nodes[i].id && r[i].outputs == nodes[i].outputs
      && |r[i].inputs| == |nodes[i].inputs|
      && forall j :: 0 <= j < |nodes[i].inputs| ==> r[i].inputs[j] == GlobalFrom(nodes[i].inputs[j], output)
  {
    r := [];
    var i := 0;
    while i < |nodes|
      invariant 0 <= i <= |nodes|
      invariant |r| == i
      invariant forall k :: 0 <= k < i ==>
        && r[k].id == nodes[k].id && r[k].outputs == nodes[k].outputs
        && |r[k].inputs| == |nodes[k].inputs|
        && forall j :: 0 <= j < |nodes[k].inputs| ==> r[k].inputs[j] == GlobalFrom(nodes[k].inputs[j], output)
    {
      var inputs := SetGlobalOnInputs(nodes[i].inputs, output);
      r := r + [nodes[i].(inputs := inputs)];
      i := i + 1;
    }
  }

  class XibleEditor {
    /** `this.selection`. */
    var selection: seq<Item>
    /** `this.loadedFlow.nodes` and `this.loadedFlow.connectors`. */
    var nodes: seq<ENode>
    var connectors: seq<EConnector>

    /** The selection never holds an item twice. */
    ghost predicate Valid()
      reads this
    {
      NoDup(selection)
    }

    constructor (nodes: seq<ENode>, connectors: seq<EConnector>)
      ensures Valid() && selection == [] && this.nodes == nodes && this.connectors == connectors
    {
      selection := [];
      this.nodes := nodes;
      this.connectors := connectors;
    }

    /** `select(obj)`: append unless already selected. */
    method Select(obj: Item)
      requires Valid()
      modifies this
      ensures Valid()
      ensures selection == if obj in old(selection) then old(selection) else old(selection) + [obj]
      ensures nodes == old(nodes) && connectors == old(connectors)
    {
      if IndexOf(selection, obj) == -1 {
        AppendAbsent(selection, obj);
        selection := selection + [obj];
      }
    }

    /** `deselect(obj)`: remove `obj` if selected, keeping the others in order;
      * `deselect()` empties the selection. */
    method Deselect(obj: Option<Item>)
      requires Valid()
      modifies this
      ensures Valid()
      ensures obj.None? ==> selection == []
      ensures obj.Some? ==> selection == RemoveFirst(old(selection), obj.value)
      ensures nodes == old(nodes) && connectors == old(connectors)
    {
      match obj {
        case Some(o) =>
          var i := IndexOf(selection, o);
          if i > -1 {
            selection := selection[..i] + selection[i + 1..];
          }
        case None =>
          selection := [];
      }
    }

    /** `toggleSelectionOnMouseEvent(event, obj)`; `dragFired` is the global
      * `window.nodeDragHasFired`. */
    method ToggleSelectionOnMouseEvent(event: MouseEvent, obj: Item, dragFired: bool)
      requires Valid()
      modifies this
      ensures Valid()
      ensures selection == Toggled(old(selection), event, obj, dragFired)
      ensures nodes == old(nodes) && connectors == old(connectors)
    {
      ToggleTable(selection, event, obj, dragFired);
      if event.button == 1 {
        return;
      }
      var selectionIndex := IndexOf(selection, obj);
      if !event.ctrlKey && event.eventType == MouseDown && selectionIndex == -1 {
        Deselect(None);
        selection := selection + [obj];
      } else if event.ctrlKey && event.eventType == MouseUp && selectionIndex == -1 && !dragFired {
        selection := selection + [obj];
      } else if !event.ctrlKey && event.eventType == MouseUp && selectionIndex > -1 && !dragFired {
        Deselect(None);
        selection := selection + [obj];
      } else if event.ctrlKey && event.eventType == MouseUp && selectionIndex > -1 && !dragFired {
        Deselect(Some(obj));
      }
    }

    /** `deleteNode(node)`: out of the flow's nodes and out of the selection. */
    method DeleteNode(node: ENode)
      requires Valid()
      modifies this
      ensures Valid()
      ensures nodes == RemoveFirst(old(nodes), node)
      ensures selection == RemoveFirst(old(selection), NodeItem(node))
      ensures connectors == old(connectors)
    {
      var index := IndexOf(nodes, node);
      if index > -1 {
        nodes := nodes[..index] + nodes[index + 1..];
      }
      Deselect(Some(NodeItem(node)));
    }

    /** `deleteConnector(connector)`: out of the flow's connectors and out of
      * the selection. */
    method DeleteConnector(connector: EConnector)
      requires Valid()
      modifies this
      ensures Valid()
      ensures connectors == RemoveFirst(old(connectors), connector)
      ensures selection == RemoveFirst(old(selection), ConnectorItem(connector))
      ensures nodes == old(nodes)
    {
      var index := IndexOf(connectors, connector);
      if index > -1 {
        connectors := connectors[..index] + connectors[index + 1..];
      }
      Deselect(Some(ConnectorItem(connector)));
    }

    /** The global-input part of `addNode(node)`: every input whose type is
      * the type of a global output somewhere in the loaded flow becomes
      * global; other inputs are untouched. */
    method AddNode(node: ENode) returns (r: ENode)
      ensures r.id == node.id && r.outputs == node.outputs && |r.inputs| == |node.inputs|
      ensures forall j :: 0 <= j < |node.inputs| ==>
        r.inputs[j] == if node.inputs[j].portType in GlobalTypes(nodes) then node.inputs[j].(global := true) else node.inputs[j]
    {
      var globalTypes := GlobalTypes(nodes);
      var inputs: seq<EPort> := [];
      var j := 0;
      while j < |node.inputs|
        invariant 0 <= j <= |node.inputs|
        invariant |inputs| == j
        invariant forall k :: 0 <= k < j ==>
          inputs[k] == if node.inputs[k].portType in globalTypes then node.inputs[k].(global := true) else node.inputs[k]
      {
        var input := node.inputs[j];
        var found := IndexOf(globalTypes, input.portType) > -1;
        assert found <==> node.inputs[j].portType in globalTypes;
        if found {
          input := input.(global := true);
        }
        assert forall k :: 0 <= k < j ==> (inputs + [input])[k] == inputs[k];
        inputs := inputs + [input];
        j := j + 1;
      }
      r := node.(inputs := inputs);
    }
  }
}

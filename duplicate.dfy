/** `XibleEditor.duplicate(selection)`: copies of the selected nodes, copies of
  * the connectors between them, and copies of the selected connectors that
  * leave or enter the selection. A node's own copying (`node.duplicate()`) is
  * not part of this model: a copy is named by the node it copies, and a port
  * on a copy by that node and the port's name, which is how the source looks
  * it up (`getOutputByName`, `getInputByName`). */
module Duplication {
  import opened Base
  import opened Lists
  import opened Editor

  /** An end of a copied connector: the original port, or the port of the
    * given name on the copy of the given node. */
  datatype End = Kept(port: PortRef) | OnCopy(nodeId: string, name: string)

  /** An entry of the new selection. */
  datatype Dup = DupNode(original: ENode) | DupConnector(origin: End, destination: End)

  /** The state of the connector pass: `processedOutputs`,
    * `processedConnectors` and the new selection so far. */
  datatype Copying = Copying(outputs: seq<string>, keys: seq<string>, made: seq<Dup>)

  /** `${conn.origin._id},${conn.destination._id}`. */
  function ConnKey(c: EConnector): string {
    c.origin.id + "," + c.destination.id
  }

  /** The keys of `dupMap`: the ids of the selected nodes. */
  function CopiedIds(selection: seq<Item>): (r: set<string>)
    ensures forall i :: 0 <= i < |selection| && selection[i].NodeItem? ==> selection[i].node.id in r
    ensures forall id :: id in r ==> exists i :: 0 <= i < |selection| && selection[i].NodeItem? && selection[i].node.id == id
  {
    set i | 0 <= i < |selection| && selection[i].NodeItem? :: selection[i].node.id
  }

  lemma CopiedIdsStep(selection: seq<Item>, i: nat)
    requires i < |selection|
    ensures CopiedIds(selection[..i + 1])
      == CopiedIds(selection[..i]) + (if selection[i].NodeItem? then {selection[i].node.id} else {})
  {
    var a := selection[..i + 1];
    var b := selection[..i];
    forall id | id in CopiedIds(a)
      ensures id in CopiedIds(b) + (if selection[i].NodeItem? then {selection[i].node.id} else {})
    {
      var k :| 0 <= k < |a| && a[k].NodeItem? && a[k].node.id == id;
      if k < i {
        assert b[k] == a[k];
      }
    }
  }

  /** The first pass: one copy per selected node, in selection order. */
  function NodeCopies(selection: seq<Item>): (r: seq<Dup>)
    ensures forall d :: d in r ==> d.DupNode? && NodeItem(d.original) in selection
    ensures forall n :: NodeItem(n) in selection ==> DupNode(n) in r
  {
    if selection == [] then []
    else
      var init := selection[..|selection| - 1];
      var last := selection[|selection| - 1];
      assert selection == init + [last];
      NodeCopies(init) + (if last.NodeItem? then [DupNode(last.node)] else [])
  }

  /** The ids of some ports, in order. */
  function PortIds(ports: seq<EPort>): (r: seq<string>)
    ensures |r| == |ports|
    ensures forall j :: 0 <= j < |ports| ==> r[j] == ports[j].id
  {
    seq(|ports|, j requires 0 <= j < |ports| => ports[j].id)
  }

  /** The ids of the outputs of the selected nodes, node by node. */
  function OutputIds(selection: seq<Item>): seq<string> {
    if selection == [] then []
    else
      var last := selection[|selection| - 1];
      OutputIds(selection[..|selection| - 1]) + (if last.NodeItem? then PortIds(last.node.outputs) else [])
  }

  /** A copy of a connector between two selected nodes: both ends on copies. */
  function InnerCopy(nodeId: string, output: EPort, c: EConnector): Dup {
    DupConnector(OnCopy(nodeId, output.name), OnCopy(c.destination.nodeId, c.destination.name))
  }

  predicate IsInnerCopy(d: Dup) {
    d.DupConnector? && d.origin.OnCopy? && d.destination.OnCopy?
  }

  /** `b` is `a` followed by inner copies only. */
  predicate InnerExtension(a: seq<Dup>, b: seq<Dup>) {
    |a| <= |b| && b[..|a|] == a && forall k :: |a| <= k < |b| ==> IsInnerCopy(b[k])
  }

  lemma InnerExtensionTrans(a: seq<Dup>, b: seq<Dup>, c: seq<Dup>)
    requires InnerExtension(a, b) && InnerExtension(b, c)
    ensures InnerExtension(a, c)
  {
    assert c[..|a|] == c[..|b|][..|a|];
    forall k | |a| <= k < |c| ensures IsInnerCopy(c[k]) {
      if k < |b| {
        assert c[k] == c[..|b|][k];
      }
    }
  }

  /** One connector of an output of a selected node: copied when its
    * destination node is selected too. */
  function ConnectorStep(st: Copying, nodeId: string, output: EPort, c: EConnector, ids: set<string>): Copying {
    if c.destination.nodeId in ids then
      st.(keys := st.keys + [ConnKey(c)], made := st.made + [InnerCopy(nodeId, output, c)])
    else st
  }

  function ConnectorsFold(st: Copying, nodeId: string, output: EPort, conns: seq<EConnector>, ids: set<string>): (r: Copying)
    ensures r.outputs == st.outputs
    ensures InnerExtension(st.made, r.made)
    ensures forall x :: x in st.keys ==> x in r.keys
    ensures forall c :: c in conns && c.destination.nodeId in ids ==> InnerCopy(nodeId, output, c) in r.made
  {
    if conns == [] then st
    else
      var prev := ConnectorsFold(st, nodeId, output, conns[..|conns| - 1], ids);
      assert conns == conns[..|conns| - 1] + [conns[|conns| - 1]];
      var r := ConnectorStep(prev, nodeId, output, conns[|conns| - 1], ids);
      assert r.made[..|prev.made|] == prev.made;
      assert forall d :: d in prev.made ==> d in r.made;
      assert InnerExtension(prev.made, r.made);
      InnerExtensionTrans(st.made, prev.made, r.made);
      r
  }

  /** One output of a selected node: skipped when its id was processed. */
  function OutputStep(st: Copying, nodeId: string, output: EPort, ids: set<string>): Copying {
    if output.id in st.outputs then st
    else ConnectorsFold(st.(outputs := st.outputs + [output.id]), nodeId, output, output.connectors, ids)
  }

  function OutputsFold(st: Copying, nodeId: string, outputs: seq<EPort>, ids: set<string>): (r: Copying)
    ensures InnerExtension(st.made, r.made)
    ensures forall x :: x in st.keys ==> x in r.keys
    ensures forall x :: x in r.outputs <==> x in st.outputs || x in PortIds(outputs)
    ensures NoDup(st.outputs) ==> NoDup(r.outputs)
  {
    if outputs == [] then st
    else
      var init := outputs[..|outputs| - 1];
      var last := outputs[|outputs| - 1];
      var prev := OutputsFold(st, nodeId, init, ids);
      assert PortIds(outputs) == PortIds(init) + [last.id];
      var r := OutputStep(prev, nodeId, last, ids);
      assert InnerExtension(prev.made, r.made);
      InnerExtensionTrans(st.made, prev.made, r.made);
      if last.id in prev.outputs || !NoDup(prev.outputs) then r
      else
        AppendAbsent(prev.outputs, last.id);
        r
  }

  /** One entry of the selection in the connector pass: only nodes count. */
  function ItemStep(st: Copying, item: Item, ids: set<string>): Copying {
    if item.NodeItem? then OutputsFold(st, item.node.id, item.node.outputs, ids) else st
  }

  function InnerFold(st: Copying, items: seq<Item>, ids: set<string>): (r: Copying)
    ensures InnerExtension(st.made, r.made)
    ensures forall x :: x in st.keys ==> x in r.keys
    ensures forall x :: x in r.outputs <==> x in st.outputs || x in OutputIds(items)
    ensures NoDup(st.outputs) ==> NoDup(r.outputs)
  {
    if items == [] then st
    else
      var init := items[..|items| - 1];
      var last := items[|items| - 1];
      var prev := InnerFold(st, init, ids);
      assert OutputIds(items) == OutputIds(init) + (if last.NodeItem? then PortIds(last.node.outputs) else []);
      var r := ItemStep(prev, last, ids);
      InnerExtensionTrans(st.made, prev.made, r.made);
      r
  }

  /** One inner copy per connector of `output` whose destination node is
    * selected, in connector order. */
  function ConnectorCopies(nodeId: string, output: EPort, conns: seq<EConnector>, ids: set<string>): seq<Dup> {
    if conns == [] then []
    else
      var last := conns[|conns| - 1];
      ConnectorCopies(nodeId, output, conns[..|conns| - 1], ids)
        + (if last.destination.nodeId in ids then [InnerCopy(nodeId, output, last)] else [])
  }

  /** The same over every output of one node, in output order. */
  function OutputCopies(nodeId: string, outputs: seq<EPort>, ids: set<string>): seq<Dup> {
    if outputs == [] then []
    else
      var last := outputs[|outputs| - 1];
      OutputCopies(nodeId, outputs[..|outputs| - 1], ids) + ConnectorCopies(nodeId, last, last.connectors, ids)
  }

  /** The copies of the connectors between selected nodes, defined without
    * the bookkeeping of processed outputs: for each selected node, each of
    * its outputs and each connector into a selected node, one copy, in
    * traversal order. */
  function InnerCopies(items: seq<Item>, ids: set<string>): seq<Dup> {
    if items == [] then []
    else
      var last := items[|items| - 1];
      InnerCopies(items[..|items| - 1], ids)
        + (if last.NodeItem? then OutputCopies(last.node.id, last.node.outputs, ids) else [])
  }

  /** Both nodes of `c` are selected. */
  predicate BothCopied(c: EConnector, ids: set<string>) {
    c.origin.nodeId in ids && c.destination.nodeId in ids
  }

  /** A selected connector is copied in the last pass when no inner copy was
    * made of it and not both of its nodes are selected. */
  predicate Edge(c: EConnector, keys: seq<string>, ids: set<string>) {
    ConnKey(c) !in keys && !BothCopied(c, ids)
  }

  /** The copy of such a connector: an end moves to the copy of its node when
    * that node is selected, and stays on the original port otherwise. */
  function EdgeCopy(c: EConnector, ids: set<string>): (r: Dup)
    ensures r.DupConnector?
    ensures Edge(c, [], ids) ==> r.origin.Kept? || r.destination.Kept?
  {
    DupConnector(
      if c.origin.nodeId in ids then OnCopy(c.origin.nodeId, c.origin.name) else Kept(c.origin),
      if c.destination.nodeId in ids then OnCopy(c.destination.nodeId, c.destination.name) else Kept(c.destination))
  }

  function EdgeStep(made: seq<Dup>, item: Item, keys: seq<string>, ids: set<string>): seq<Dup> {
    if item.ConnectorItem? && Edge(item.connector, keys, ids) then made + [EdgeCopy(item.connector, ids)] else made
  }

  /** Every element after `made` in `r` is the copy of an edge of `items`. */
  ghost predicate EdgeCopies(made: seq<Dup>, r: seq<Dup>, items: seq<Item>, keys: seq<string>, ids: set<string>) {
    forall k :: |made| <= k < |r| ==> IsEdgeCopy(r[k], items, keys, ids)
  }

  /** `d` is the copy of an edge of `items`. */
  ghost predicate IsEdgeCopy(d: Dup, items: seq<Item>, keys: seq<string>, ids: set<string>) {
    exists c :: ConnectorItem(c) in items && Edge(c, keys, ids) && d == EdgeCopy(c, ids)
  }

  /** One more item keeps every added element a copy of an edge. */
  lemma EdgeCopiesStep(made: seq<Dup>, prev: seq<Dup>, init: seq<Item>, last: Item, keys: seq<string>, ids: set<string>)
    requires EdgeCopies(made, prev, init, keys, ids)
    ensures EdgeCopies(made, EdgeStep(prev, last, keys, ids), init + [last], keys, ids)
  {
    var items := init + [last];
    var r := EdgeStep(prev, last, keys, ids);
    forall k | |made| <= k < |r|
      ensures IsEdgeCopy(r[k], items, keys, ids)
    {
      if k < |prev| {
        assert IsEdgeCopy(prev[k], init, keys, ids);
        var c :| ConnectorItem(c) in init && Edge(c, keys, ids) && prev[k] == EdgeCopy(c, ids);
        assert r[k] == prev[k];
        assert ConnectorItem(c) in items;
      } else {
        assert r == prev + [EdgeCopy(last.connector, ids)];
        assert last == ConnectorItem(last.connector) && last in items;
      }
    }
  }

  function EdgeFold(made: seq<Dup>, items: seq<Item>, keys: seq<string>, ids: set<string>): (r: seq<Dup>)
    ensures |r| >= |made| && r[..|made|] == made
    ensures forall k :: |made| <= k < |r| ==> r[k].DupConnector? && (r[k].origin.Kept? || r[k].destination.Kept?)
    ensures forall c :: ConnectorItem(c) in items && Edge(c, keys, ids) ==> EdgeCopy(c, ids) in r
    ensures EdgeCopies(made, r, items, keys, ids)
  {
    if items == [] then made
    else
      var init := items[..|items| - 1];
      var last := items[|items| - 1];
      assert items == init + [last];
      var prev := EdgeFold(made, init, keys, ids);
      var r := EdgeStep(prev, last, keys, ids);
      assert r[..|prev|] == prev;
      EdgeCopiesStep(made, prev, init, last, keys, ids);
      r
  }

  /** The state after the first two passes of `duplicate(selection)`. */
  function InnerPass(selection: seq<Item>): Copying {
    InnerFold(Copying([], [], NodeCopies(selection)), selection, CopiedIds(selection))
  }

  /** What `duplicate(selection)` returns. */
  function Duplicated(selection: seq<Item>): seq<Dup> {
    EdgeFold(InnerPass(selection).made, selection, InnerPass(selection).keys, CopiedIds(selection))
  }

  /** Connector `c` leaves output `j` of the node at position `i` of `items`
    * for a node whose id is in `ids`. */
  predicate Connects(items: seq<Item>, i: int, j: int, c: EConnector, ids: set<string>) {
    && 0 <= i < |items| && items[i].NodeItem?
    && 0 <= j < |items[i].node.outputs|
    && c in items[i].node.outputs[j].connectors
    && c.destination.nodeId in ids
  }

  /** Every connector of a not yet processed output whose destination node is
    * selected is copied. */
  lemma {:induction false} OutputsFoldCopies(st: Copying, nodeId: string, outputs: seq<EPort>, ids: set<string>)
    requires forall j :: 0 <= j < |outputs| ==> outputs[j].id !in st.outputs
    requires NoDup(PortIds(outputs))
    ensures forall j, c :: 0 <= j < |outputs| && c in outputs[j].connectors && c.destination.nodeId in ids ==>
      InnerCopy(nodeId, outputs[j], c) in OutputsFold(st, nodeId, outputs, ids).made
  {
    if outputs != [] {
      var init := outputs[..|outputs| - 1];
      var last := outputs[|outputs| - 1];
      assert PortIds(outputs) == PortIds(init) + [last.id];
      NoDupSplit(PortIds(init), [last.id]);
      OutputsFoldCopies(st, nodeId, init, ids);
      var prev := OutputsFold(st, nodeId, init, ids);
      var r := OutputsFold(st, nodeId, outputs, ids);
      assert last.id !in prev.outputs;
      assert r == ConnectorsFold(prev.(outputs := prev.outputs + [last.id]), nodeId, last, last.connectors, ids);
      forall j, c | 0 <= j < |outputs| && c in outputs[j].connectors && c.destination.nodeId in ids
        ensures InnerCopy(nodeId, outputs[j], c) in r.made
      {
        if j < |init| {
          assert outputs[j] == init[j];
          assert InnerCopy(nodeId, init[j], c) in prev.made;
          assert r.made[..|prev.made|] == prev.made;
        }
      }
    }
  }

  /** The output ids of the last selected item are fresh for the pass over
    * the earlier ones. */
  lemma LastOutputsFresh(st: Copying, items: seq<Item>, ids: set<string>)
    requires items != [] && items[|items| - 1].NodeItem?
    requires forall x :: x in OutputIds(items) ==> x !in st.outputs
    requires NoDup(OutputIds(items))
    ensures var outs := items[|items| - 1].node.outputs;
      && NoDup(PortIds(outs))
      && forall j :: 0 <= j < |outs| ==> outs[j].id !in InnerFold(st, items[..|items| - 1], ids).outputs
  {
    var init := items[..|items| - 1];
    var outs := items[|items| - 1].node.outputs;
    var lastIds := PortIds(outs);
    assert OutputIds(items) == OutputIds(init) + lastIds;
    NoDupSplit(OutputIds(init), lastIds);
    forall j | 0 <= j < |outs| ensures outs[j].id !in InnerFold(st, init, ids).outputs {
      assert outs[j].id in lastIds;
      assert outs[j].id in OutputIds(items);
    }
  }

  /** The pass over one more item keeps every copy made before. */
  lemma InnerFoldKeeps(st: Copying, items: seq<Item>, ids: set<string>)
    requires items != []
    ensures forall d :: d in InnerFold(st, items[..|items| - 1], ids).made ==> d in InnerFold(st, items, ids).made
  {
    var prev := InnerFold(st, items[..|items| - 1], ids);
    var r := InnerFold(st, items, ids);
    assert r == ItemStep(prev, items[|items| - 1], ids);
    assert r.made[..|prev.made|] == prev.made;
    forall d | d in prev.made ensures d in r.made {
      var k :| 0 <= k < |prev.made| && prev.made[k] == d;
      assert r.made[k] == d;
    }
  }

  /** Every connector between two selected nodes is copied, provided the
    * outputs of the selected nodes have distinct ids. */
  lemma {:induction false} InnerFoldCopies(st: Copying, items: seq<Item>, ids: set<string>)
    requires forall x :: x in OutputIds(items) ==> x !in st.outputs
    requires NoDup(OutputIds(items))
    ensures forall i, j, c :: Connects(items, i, j, c, ids) ==>
      InnerCopy(items[i].node.id, items[i].node.outputs[j], c) in InnerFold(st, items, ids).made
  {
    if items != [] {
      var init := items[..|items| - 1];
      var last := items[|items| - 1];
      var lastIds := if last.NodeItem? then PortIds(last.node.outputs) else [];
      assert OutputIds(items) == OutputIds(init) + lastIds;
      NoDupSplit(OutputIds(init), lastIds);
      InnerFoldCopies(st, init, ids);
      InnerFoldKeeps(st, items, ids);
      var prev := InnerFold(st, init, ids);
      var r := InnerFold(st, items, ids);
      if last.NodeItem? {
        LastOutputsFresh(st, items, ids);
        OutputsFoldCopies(prev, last.node.id, last.node.outputs, ids);
        assert r == OutputsFold(prev, last.node.id, last.node.outputs, ids);
      }
      forall i, j, c | Connects(items, i, j, c, ids)
        ensures InnerCopy(items[i].node.id, items[i].node.outputs[j], c) in r.made
      {
        if i < |init| {
          assert items[i] == init[i];
          assert Connects(init, i, j, c, ids);
        }
      }
    }
  }

  /** The walk over one output's connectors adds exactly its connector copies. */
  lemma {:induction false} ConnectorsFoldMade(st: Copying, nodeId: string, output: EPort, conns: seq<EConnector>, ids: set<string>)
    ensures ConnectorsFold(st, nodeId, output, conns, ids).made == st.made + ConnectorCopies(nodeId, output, conns, ids)
  {
    if conns != [] {
      ConnectorsFoldMade(st, nodeId, output, conns[..|conns| - 1], ids);
    }
  }

  /** The walk over the outputs of one node, none of them processed yet and
    * with distinct ids, adds exactly the copies of their connectors. */
  lemma {:induction false} OutputsFoldMade(st: Copying, nodeId: string, outputs: seq<EPort>, ids: set<string>)
    requires forall x :: x in PortIds(outputs) ==> x !in st.outputs
    requires NoDup(PortIds(outputs))
    ensures OutputsFold(st, nodeId, outputs, ids).made == st.made + OutputCopies(nodeId, outputs, ids)
  {
    if outputs != [] {
      var init := outputs[..|outputs| - 1];
      var last := outputs[|outputs| - 1];
      LastOutputFresh(st, nodeId, outputs, ids);
      OutputsFoldMade(st, nodeId, init, ids);
      OutputsFoldLast(st, nodeId, outputs, ids);
      OutputStepMade(OutputsFold(st, nodeId, init, ids), st.made, OutputCopies(nodeId, init, ids), nodeId, last, ids);
    }
  }

  /** Processing an output not processed before adds its connector copies. */
  lemma OutputStepMade(st: Copying, made: seq<Dup>, before: seq<Dup>, nodeId: string, output: EPort, ids: set<string>)
    requires output.id !in st.outputs && st.made == made + before
    ensures OutputStep(st, nodeId, output, ids).made == made + (before + ConnectorCopies(nodeId, output, output.connectors, ids))
  {
    ConnectorsFoldMade(st.(outputs := st.outputs + [output.id]), nodeId, output, output.connectors, ids);
  }

  /** The walk over the outputs is the step for the last one after the walk
    * over the others. */
  lemma OutputsFoldLast(st: Copying, nodeId: string, outputs: seq<EPort>, ids: set<string>)
    requires outputs != []
    ensures OutputsFold(st, nodeId, outputs, ids)
      == OutputStep(OutputsFold(st, nodeId, outputs[..|outputs| - 1], ids), nodeId, outputs[|outputs| - 1], ids)
  {
  }

  /** Under the same conditions, the last output is not processed by the walk
    * over the ones before it, and those meet the conditions too. */
  lemma LastOutputFresh(st: Copying, nodeId: string, outputs: seq<EPort>, ids: set<string>)
    requires outputs != []
    requires forall x :: x in PortIds(outputs) ==> x !in st.outputs
    requires NoDup(PortIds(outputs))
    ensures var init := outputs[..|outputs| - 1];
      && (forall x :: x in PortIds(init) ==> x !in st.outputs)
      && NoDup(PortIds(init))
      && outputs[|outputs| - 1].id !in OutputsFold(st, nodeId, init, ids).outputs
  {
    var init := outputs[..|outputs| - 1];
    var last := outputs[|outputs| - 1];
    assert PortIds(outputs) == PortIds(init) + [last.id];
    NoDupSplit(PortIds(init), [last.id]);
  }

  /** With distinct output ids, the connector pass adds exactly `InnerCopies`. */
  lemma {:induction false} InnerFoldMade(st: Copying, items: seq<Item>, ids: set<string>)
    requires forall x :: x in OutputIds(items) ==> x !in st.outputs
    requires NoDup(OutputIds(items))
    ensures InnerFold(st, items, ids).made == st.made + InnerCopies(items, ids)
  {
    if items != [] {
      var init := items[..|items| - 1];
      var last := items[|items| - 1];
      var lastIds := if last.NodeItem? then PortIds(last.node.outputs) else [];
      assert OutputIds(items) == OutputIds(init) + lastIds;
      NoDupSplit(OutputIds(init), lastIds);
      InnerFoldMade(st, init, ids);
      if last.NodeItem? {
        var outs := last.node.outputs;
        var prev := InnerFold(st, init, ids);
        LastOutputsFresh(st, items, ids);
        forall x | x in PortIds(outs) ensures x !in prev.outputs {
          var j :| 0 <= j < |outs| && PortIds(outs)[j] == x;
        }
        OutputsFoldMade(prev, last.node.id, outs, ids);
      }
    }
  }

  /** `d` copies a connector of `conns` into a node of `ids`. */
  ghost predicate CopyOfConnector(d: Dup, nodeId: string, output: EPort, conns: seq<EConnector>, ids: set<string>) {
    exists c :: c in conns && c.destination.nodeId in ids && d == InnerCopy(nodeId, output, c)
  }

  /** `d` copies a connector from a node of `items` to a node of `ids`. */
  ghost predicate CopyOfInner(d: Dup, items: seq<Item>, ids: set<string>) {
    exists i, j, c :: Connects(items, i, j, c, ids) && d == InnerCopy(items[i].node.id, items[i].node.outputs[j], c)
  }

  lemma {:induction false} ConnectorCopiesSound(nodeId: string, output: EPort, conns: seq<EConnector>, ids: set<string>)
    ensures forall d :: d in ConnectorCopies(nodeId, output, conns, ids) ==> CopyOfConnector(d, nodeId, output, conns, ids)
  {
    if conns != [] {
      var init := conns[..|conns| - 1];
      var last := conns[|conns| - 1];
      ConnectorCopiesSound(nodeId, output, init, ids);
      forall d | d in ConnectorCopies(nodeId, output, conns, ids) ensures CopyOfConnector(d, nodeId, output, conns, ids) {
        if d in ConnectorCopies(nodeId, output, init, ids) {
          assert CopyOfConnector(d, nodeId, output, init, ids);
          var c :| c in init && c.destination.nodeId in ids && d == InnerCopy(nodeId, output, c);
          assert c in conns;
        } else {
          assert last in conns;
        }
      }
    }
  }

  lemma {:induction false} OutputCopiesSound(nodeId: string, outputs: seq<EPort>, ids: set<string>)
    ensures forall d :: d in OutputCopies(nodeId, outputs, ids) ==>
      exists j :: 0 <= j < |outputs| && CopyOfConnector(d, nodeId, outputs[j], outputs[j].connectors, ids)
  {
    if outputs != [] {
      var init := outputs[..|outputs| - 1];
      var last := outputs[|outputs| - 1];
      OutputCopiesSound(nodeId, init, ids);
      ConnectorCopiesSound(nodeId, last, last.connectors, ids);
      forall d | d in OutputCopies(nodeId, outputs, ids)
        ensures exists j :: 0 <= j < |outputs| && CopyOfConnector(d, nodeId, outputs[j], outputs[j].connectors, ids)
      {
        if d in OutputCopies(nodeId, init, ids) {
          var j :| 0 <= j < |init| && CopyOfConnector(d, nodeId, init[j], init[j].connectors, ids);
          assert outputs[j] == init[j];
        } else {
          assert CopyOfConnector(d, nodeId, outputs[|outputs| - 1], outputs[|outputs| - 1].connectors, ids);
        }
      }
    }
  }

  /** Every inner copy comes from a connector between a selected node and a
    * node of `ids`. */
  lemma {:induction false} InnerCopiesSound(items: seq<Item>, ids: set<string>)
    ensures forall d :: d in InnerCopies(items, ids) ==> CopyOfInner(d, items, ids)
  {
    if items != [] {
      var init := items[..|items| - 1];
      var i := |items| - 1;
      var last := items[i];
      InnerCopiesSound(init, ids);
      forall d | d in InnerCopies(items, ids) ensures CopyOfInner(d, items, ids) {
        if d in InnerCopies(init, ids) {
          assert CopyOfInner(d, init, ids);
          var i', j, c :| Connects(init, i', j, c, ids) && d == InnerCopy(init[i'].node.id, init[i'].node.outputs[j], c);
          assert items[i'] == init[i'];
          assert Connects(items, i', j, c, ids);
        } else {
          OutputCopiesSound(last.node.id, last.node.outputs, ids);
          var j :| 0 <= j < |last.node.outputs| && CopyOfConnector(d, last.node.id, last.node.outputs[j], last.node.outputs[j].connectors, ids);
          var c :| c in last.node.outputs[j].connectors && c.destination.nodeId in ids
            && d == InnerCopy(last.node.id, last.node.outputs[j], c);
          assert Connects(items, i, j, c, ids);
        }
      }
    }
  }

  /** The result of `duplicate` starts with the node copies. */
  lemma NodeCopiesPrefix(selection: seq<Item>)
    ensures |Duplicated(selection)| >= |NodeCopies(selection)|
    ensures Duplicated(selection)[..|NodeCopies(selection)|] == NodeCopies(selection)
  {
    var nodes := NodeCopies(selection);
    var st := InnerPass(selection);
    var r := Duplicated(selection);
    assert st.made[..|nodes|] == nodes;
    assert r[..|st.made|] == st.made;
    assert r[..|nodes|] == st.made[..|nodes|];
  }

  /** After the node copies, `duplicate` makes only connector copies. */
  lemma ConnectorsAfterNodes(selection: seq<Item>)
    ensures forall k :: |NodeCopies(selection)| <= k < |Duplicated(selection)| ==> Duplicated(selection)[k].DupConnector?
  {
    var nodes := NodeCopies(selection);
    var st := InnerPass(selection);
    var r := Duplicated(selection);
    forall k | |nodes| <= k < |r| ensures r[k].DupConnector? {
      if k < |st.made| {
        assert r[..|st.made|] == st.made;
        assert r[k] == st.made[k];
        assert IsInnerCopy(st.made[k]);
      }
    }
  }

  /** `duplicate` copies exactly the selected nodes, first and in order. */
  lemma DuplicateNodes(selection: seq<Item>)
    ensures var r := Duplicated(selection);
      && |r| >= |NodeCopies(selection)| && r[..|NodeCopies(selection)|] == NodeCopies(selection)
      && (forall d :: d in r && d.DupNode? ==> NodeItem(d.original) in selection)
      && (forall n :: NodeItem(n) in selection ==> DupNode(n) in r)
  {
    var nodes := NodeCopies(selection);
    var r := Duplicated(selection);
    NodeCopiesPrefix(selection);
    ConnectorsAfterNodes(selection);
    forall d | d in r && d.DupNode? ensures NodeItem(d.original) in selection {
      var k :| 0 <= k < |r| && r[k] == d;
      assert k < |nodes|;
      assert r[k] == nodes[k];
    }
    forall n | NodeItem(n) in selection ensures DupNode(n) in r {
      var k :| 0 <= k < |nodes| && nodes[k] == DupNode(n);
      assert r[k] == nodes[k];
    }
  }

  /** When the outputs of the selected nodes have distinct ids, the result
    * starts with the node copies followed by exactly one copy of every
    * connector from a selected node to a selected node, in traversal order,
    * with both ends on the copies; so every such connector is copied. */
  lemma DuplicateInner(selection: seq<Item>)
    requires NoDup(OutputIds(selection))
    ensures var inner := NodeCopies(selection) + InnerCopies(selection, CopiedIds(selection));
      |Duplicated(selection)| >= |inner| && Duplicated(selection)[..|inner|] == inner
    ensures forall i, j, c :: Connects(selection, i, j, c, CopiedIds(selection)) ==>
      InnerCopy(selection[i].node.id, selection[i].node.outputs[j], c) in Duplicated(selection)
  {
    var ids := CopiedIds(selection);
    var nodes := NodeCopies(selection);
    var st := InnerPass(selection);
    var r := Duplicated(selection);
    InnerFoldMade(Copying([], [], nodes), selection, ids);
    InnerFoldCopies(Copying([], [], nodes), selection, ids);
    assert r[..|st.made|] == st.made;
    forall d | d in st.made ensures d in r {
      var k :| 0 <= k < |st.made| && st.made[k] == d;
      assert r[k] == d;
    }
  }

  /** Every copy in the result with both ends on copies is the copy of a
    * connector from a selected node to a selected node. */
  lemma InnerCopiesOnly(selection: seq<Item>)
    requires NoDup(OutputIds(selection))
    ensures forall d :: d in Duplicated(selection) && IsInnerCopy(d) ==> CopyOfInner(d, selection, CopiedIds(selection))
  {
    var ids := CopiedIds(selection);
    var nodes := NodeCopies(selection);
    var copies := InnerCopies(selection, ids);
    var st := InnerPass(selection);
    var r := Duplicated(selection);
    InnerFoldMade(Copying([], [], nodes), selection, ids);
    InnerCopiesSound(selection, ids);
    assert st.made == nodes + copies;
    assert r[..|st.made|] == st.made;
    forall k | 0 <= k < |nodes| ensures r[k].DupNode? {
      assert r[k] == nodes[k] && nodes[k] in nodes;
    }
    forall k | |nodes| <= k < |st.made| ensures r[k] in copies {
      assert r[k] == st.made[k] == copies[k - |nodes|];
    }
    forall d | d in r && IsInnerCopy(d) ensures CopyOfInner(d, selection, ids) {
      var k :| 0 <= k < |r| && r[k] == d;
    }
  }

  /** The first two passes make only node copies and inner copies. */
  lemma InnerPassShape(selection: seq<Item>)
    ensures forall k :: 0 <= k < |InnerPass(selection).made| ==>
      InnerPass(selection).made[k].DupNode? || IsInnerCopy(InnerPass(selection).made[k])
  {
    var nodes := NodeCopies(selection);
    var st := InnerPass(selection);
    assert st.made[..|nodes|] == nodes;
    forall k | 0 <= k < |st.made| ensures st.made[k].DupNode? || IsInnerCopy(st.made[k]) {
      if k < |nodes| {
        assert st.made[k] == nodes[k] && nodes[k] in nodes;
      }
    }
  }

  /** Before the last pass, no copy has an end on an original port. */
  lemma NoKeptEndBeforeLastPass(selection: seq<Item>)
    ensures forall k :: 0 <= k < |InnerPass(selection).made| ==>
      var d := Duplicated(selection)[k];
      !(d.DupConnector? && (d.origin.Kept? || d.destination.Kept?))
  {
    var st := InnerPass(selection);
    var r := Duplicated(selection);
    InnerPassShape(selection);
    assert r[..|st.made|] == st.made;
    forall k | 0 <= k < |st.made| ensures !(r[k].DupConnector? && (r[k].origin.Kept? || r[k].destination.Kept?)) {
      assert r[k] == st.made[k];
    }
  }

  /** A selected connector is copied in the last pass exactly when no inner
    * copy covered its key and its two nodes are not both selected; every
    * copy with an end left on an original port is such a copy. */
  lemma DuplicateEdges(selection: seq<Item>)
    ensures forall c :: ConnectorItem(c) in selection && Edge(c, InnerPass(selection).keys, CopiedIds(selection)) ==>
      EdgeCopy(c, CopiedIds(selection)) in Duplicated(selection)
    ensures forall d :: d in Duplicated(selection) && d.DupConnector? && (d.origin.Kept? || d.destination.Kept?) ==>
      exists c :: ConnectorItem(c) in selection && Edge(c, InnerPass(selection).keys, CopiedIds(selection))
        && d == EdgeCopy(c, CopiedIds(selection))
  {
    var ids := CopiedIds(selection);
    var nodes := NodeCopies(selection);
    var st := InnerPass(selection);
    var r := Duplicated(selection);
    assert r[..|st.made|] == st.made;
    assert st.made[..|nodes|] == nodes;
    forall d | d in r && d.DupConnector? && (d.origin.Kept? || d.destination.Kept?)
      ensures exists c :: ConnectorItem(c) in selection && Edge(c, st.keys, ids) && d == EdgeCopy(c, ids)
    {
      var k :| 0 <= k < |r| && r[k] == d;
      assert k >= |st.made| by {
        NoKeptEndBeforeLastPass(selection);
      }
    }
  }

  /** Every key the inner loop adds is the key of one of its connectors into
    * a node of `ids`. */
  lemma {:induction false} ConnectorsKeysSound(st: Copying, nodeId: string, output: EPort, conns: seq<EConnector>, ids: set<string>)
    ensures forall k :: k in ConnectorsFold(st, nodeId, output, conns, ids).keys ==>
      k in st.keys || exists c :: c in conns && c.destination.nodeId in ids && ConnKey(c) == k
  {
    if conns != [] {
      var init := conns[..|conns| - 1];
      var last := conns[|conns| - 1];
      ConnectorsKeysSound(st, nodeId, output, init, ids);
      assert conns == init + [last];
      forall k | k in ConnectorsFold(st, nodeId, output, conns, ids).keys
        ensures k in st.keys || exists c :: c in conns && c.destination.nodeId in ids && ConnKey(c) == k
      {
        if k !in ConnectorsFold(st, nodeId, output, init, ids).keys {
          assert last in conns;
        } else if k !in st.keys {
          var c :| c in init && c.destination.nodeId in ids && ConnKey(c) == k;
          assert c in conns;
        }
      }
    }
  }

  /** Every key the middle loop adds is the key of a connector of one of the
    * node's outputs into a node of `ids`. */
  lemma {:induction false} OutputsKeysSound(st: Copying, nodeId: string, outputs: seq<EPort>, ids: set<string>)
    ensures forall k :: k in OutputsFold(st, nodeId, outputs, ids).keys ==>
      k in st.keys || exists j, c :: 0 <= j < |outputs| && c in outputs[j].connectors && c.destination.nodeId in ids && ConnKey(c) == k
  {
    if outputs != [] {
      var init := outputs[..|outputs| - 1];
      var j := |outputs| - 1;
      var last := outputs[j];
      var prev := OutputsFold(st, nodeId, init, ids);
      OutputsKeysSound(st, nodeId, init, ids);
      if last.id !in prev.outputs {
        ConnectorsKeysSound(prev.(outputs := prev.outputs + [last.id]), nodeId, last, last.connectors, ids);
      }
      forall k | k in OutputsFold(st, nodeId, outputs, ids).keys
        ensures k in st.keys || exists j, c :: 0 <= j < |outputs| && c in outputs[j].connectors && c.destination.nodeId in ids && ConnKey(c) == k
      {
        if k !in prev.keys {
          var c :| c in last.connectors && c.destination.nodeId in ids && ConnKey(c) == k;
          assert c in outputs[j].connectors;
        } else if k !in st.keys {
          var j', c :| 0 <= j' < |init| && c in init[j'].connectors && c.destination.nodeId in ids && ConnKey(c) == k;
          assert outputs[j'] == init[j'];
        }
      }
    }
  }

  /** Every key the connector pass adds is the key of a connector between a
    * node of `items` and a node of `ids`. */
  lemma {:induction false} InnerKeysSound(st: Copying, items: seq<Item>, ids: set<string>)
    ensures forall k :: k in InnerFold(st, items, ids).keys ==>
      k in st.keys || exists i, j, c :: Connects(items, i, j, c, ids) && ConnKey(c) == k
  {
    if items != [] {
      var init := items[..|items| - 1];
      var i := |items| - 1;
      var last := items[i];
      var prev := InnerFold(st, init, ids);
      InnerKeysSound(st, init, ids);
      if last.NodeItem? {
        OutputsKeysSound(prev, last.node.id, last.node.outputs, ids);
      }
      forall k | k in InnerFold(st, items, ids).keys
        ensures k in st.keys || exists i, j, c :: Connects(items, i, j, c, ids) && ConnKey(c) == k
      {
        if k !in prev.keys {
          var j, c :| 0 <= j < |last.node.outputs| && c in last.node.outputs[j].connectors
            && c.destination.nodeId in ids && ConnKey(c) == k;
          assert Connects(items, i, j, c, ids);
        } else if k !in st.keys {
          var i', j, c :| Connects(init, i', j, c, ids) && ConnKey(c) == k;
          assert items[i'] == init[i'];
          assert Connects(items, i', j, c, ids);
        }
      }
    }
  }

  /** In a well-formed flow every connector hangs from an output of its
    * origin node: `origin.node` of a connector in `node.outputs` is `node`. */
  ghost predicate OriginsHang(selection: seq<Item>) {
    forall i, j, c :: Connects(selection, i, j, c, CopiedIds(selection)) ==> c.origin.nodeId == selection[i].node.id
  }

  /** Port ids are unique across the flow, so the key of a connector names
    * the nodes at its two ends. */
  ghost predicate KeysNameEnds(selection: seq<Item>) {
    forall i, j, c, e ::
      (Connects(selection, i, j, c, CopiedIds(selection)) && ConnectorItem(e) in selection && ConnKey(c) == ConnKey(e)) ==>
      c.origin.nodeId == e.origin.nodeId && c.destination.nodeId == e.destination.nodeId
  }

  /** DuplicateEdges without the keys: in a well-formed flow a selected
    * connector is copied in the last pass iff its two nodes are not both
    * selected, and every copy with an end on an original port is such a copy. */
  lemma DuplicateEdgesByNodes(selection: seq<Item>)
    requires OriginsHang(selection) && KeysNameEnds(selection)
    ensures forall c :: ConnectorItem(c) in selection ==>
      (Edge(c, InnerPass(selection).keys, CopiedIds(selection)) <==> !BothCopied(c, CopiedIds(selection)))
    ensures forall c :: (ConnectorItem(c) in selection && !BothCopied(c, CopiedIds(selection))) ==>
      EdgeCopy(c, CopiedIds(selection)) in Duplicated(selection)
    ensures forall d :: d in Duplicated(selection) && d.DupConnector? && (d.origin.Kept? || d.destination.Kept?) ==>
      exists c :: ConnectorItem(c) in selection && !BothCopied(c, CopiedIds(selection)) && d == EdgeCopy(c, CopiedIds(selection))
  {
    var ids := CopiedIds(selection);
    var st := InnerPass(selection);
    InnerKeysSound(Copying([], [], NodeCopies(selection)), selection, ids);
    forall e | ConnectorItem(e) in selection && !BothCopied(e, ids)
      ensures ConnKey(e) !in st.keys
    {
    }
    DuplicateEdges(selection);
  }

  /** The inner loop of the connector pass, over one output's connectors. */
  method CopyConnectors(st: Copying, nodeId: string, output: EPort, ids: set<string>) returns (r: Copying)
    ensures r == ConnectorsFold(st, nodeId, output, output.connectors, ids)
  {
    r := st;
    var conns := output.connectors;
    var k := 0;
    while k < |conns|
      invariant 0 <= k <= |conns|
      invariant r == ConnectorsFold(st, nodeId, output, conns[..k], ids)
    {
      assert conns[..k + 1][..k] == conns[..k];
      var conn := conns[k];
      if conn.destination.nodeId in ids {
        r := r.(keys := r.keys + [ConnKey(conn)], made := r.made + [InnerCopy(nodeId, output, conn)]);
      }
      k := k + 1;
    }
    assert conns[..k] == conns;
  }

  /** The middle loop of the connector pass, over one node's outputs. */
  method CopyOutputs(st: Copying, nodeId: string, outputs: seq<EPort>, ids: set<string>) returns (r: Copying)
    ensures r == OutputsFold(st, nodeId, outputs, ids)
  {
    r := st;
    var j := 0;
    while j < |outputs|
      invariant 0 <= j <= |outputs|
      invariant r == OutputsFold(st, nodeId, outputs[..j], ids)
    {
      assert outputs[..j + 1][..j] == outputs[..j];
      var output := outputs[j];
      if IndexOf(r.outputs, output.id) == -1 {
        r := r.(outputs := r.outputs + [output.id]);
        r := CopyConnectors(r, nodeId, output, ids);
      }
      j := j + 1;
    }
    assert outputs[..j] == outputs;
  }

  /** The first loop of `duplicate`: a copy of every selected node, and the
    * ids of `dupMap`. */
  method CopyNodes(selection: seq<Item>) returns (copies: seq<Dup>, dupIds: set<string>)
    ensures copies == NodeCopies(selection)
    ensures dupIds == CopiedIds(selection)
  {
    copies := [];
    dupIds := {};
    var i := 0;
    while i < |selection|
      invariant 0 <= i <= |selection|
      invariant copies == NodeCopies(selection[..i])
      invariant dupIds == CopiedIds(selection[..i])
    {
      CopiedIdsStep(selection, i);
      assert selection[..i + 1][..i] == selection[..i];
      if selection[i].NodeItem? {
        copies := copies + [DupNode(selection[i].node)];
        dupIds := dupIds + {selection[i].node.id};
      }
      i := i + 1;
    }
    assert selection[..i] == selection;
  }

  /** The second loop of `duplicate`: copies of the connectors between
    * selected nodes. */
  method CopyInner(st0: Copying, selection: seq<Item>, dupIds: set<string>) returns (st: Copying)
    ensures st == InnerFold(st0, selection, dupIds)
  {
    st := st0;
    var i := 0;
    while i < |selection|
      invariant 0 <= i <= |selection|
      invariant st == InnerFold(st0, selection[..i], dupIds)
    {
      assert selection[..i + 1][..i] == selection[..i];
      if selection[i].NodeItem? {
        st := CopyOutputs(st, selection[i].node.id, selection[i].node.outputs, dupIds);
      }
      i := i + 1;
    }
    assert selection[..i] == selection;
  }

  /** The third loop of `duplicate`: copies of the selected connectors that
    * leave or enter the selection. */
  method CopyEdges(made: seq<Dup>, selection: seq<Item>, keys: seq<string>, dupIds: set<string>)
    returns (newSelection: seq<Dup>)
    ensures newSelection == EdgeFold(made, selection, keys, dupIds)
  {
    newSelection := made;
    var i := 0;
    while i < |selection|
      invariant 0 <= i <= |selection|
      invariant newSelection == EdgeFold(made, selection[..i], keys, dupIds)
    {
      assert selection[..i + 1][..i] == selection[..i];
      var item := selection[i];
      if item.ConnectorItem? && IndexOf(keys, ConnKey(item.connector)) == -1 {
        var conn := item.connector;
        var origCopied := conn.origin.nodeId in dupIds;
        var destCopied := conn.destination.nodeId in dupIds;
        if !origCopied || !destCopied {
          newSelection := newSelection + [DupConnector(
            if origCopied then OnCopy(conn.origin.nodeId, conn.origin.name) else Kept(conn.origin),
            if destCopied then OnCopy(conn.destination.nodeId, conn.destination.name) else Kept(conn.destination))];
        }
      }
      i := i + 1;
    }
    assert selection[..i] == selection;
  }

  /** `duplicate(selection)`; the editor passes its own selection by default.
    * `dupMap` is represented by its key set, since only its keys' presence
    * and the node each key copies are ever used. */
  method Duplicate(selection: seq<Item>) returns (newSelection: seq<Dup>)
    ensures newSelection == Duplicated(selection)
  {
    var copies, dupIds := CopyNodes(selection);
    var st := CopyInner(Copying([], [], copies), selection, dupIds);
    newSelection := CopyEdges(st.made, selection, st.keys, dupIds);
  }
}

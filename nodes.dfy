/** Nodes and their ports: name-keyed port registries, port validation, the
  * pull protocol of inputs (`getValues`), the push protocol of outputs
  * (`trigger`), status and progress messages, error reporting and the node's
  * binding to the vault. Event emitters are one shared `EventLog`; the
  * process channel is an `Ipc.Channel`. */
module Nodes {
  import opened Base
  import opened Lists
  import opened Js
  import opened Ipc
  import opened Registries
  import opened Fanin
  import opened Vault

  datatype NodeError =
    | ArgumentError(message: string)   // a plain Error thrown for a missing argument
    | PreconditionError                // "state should be provided and instance of FlowState"
    | TypeError(message: string)       // a TypeError, raised by the code or by the runtime

  const GlobalTypeError := TypeError("you cannot define a input or output with type 'global'")
  const StatusRequired := ArgumentError("the \"status\" argument is required")
  const IdAndStatusRequired := ArgumentError("the \"statusId\" and \"status\" arguments are required")
  const StatusIdRequired := ArgumentError("the \"statusId\" argument is required")
  const NotAttached := TypeError("Cannot read property '_id' of null")
  const NotStampable := TypeError("Cannot create property '_id' on a primitive value")

  datatype Direction = In | Out

  /** The settings a port keeps from the object it is constructed from. */
  datatype PortConfig = PortConfig(
    portType: Option<string>,
    singleType: bool,
    maxConnectors: Option<int>,
    global: bool,
    description: Option<string>)

  const Defaults := PortConfig(None, false, None, false, None)

  /** The field validation of the `NodeIo` constructor: each field is taken only
    * when it has the right JavaScript type, and the literal type 'global' is
    * refused. */
  function PortConfigOf(obj: JsValue): (r: Result<PortConfig, NodeError>)
    ensures r.Failure? <==> Get(obj, "type") == Str("global")
    ensures r.Failure? ==> r.error == GlobalTypeError
    ensures !Truthy(obj) ==> r == Success(Defaults)
    ensures r.Success? ==> (r.value.portType.Some? <==> Get(obj, "type").Str?)
    ensures r.Success? && r.value.portType.Some? ==> Get(obj, "type") == Str(r.value.portType.value)
    ensures r.Success? ==> (r.value.singleType <==> Get(obj, "singleType") == Bool(true))
    ensures r.Success? ==> (r.value.maxConnectors.Some? <==> Get(obj, "maxConnectors").Number?)
    ensures r.Success? && r.value.maxConnectors.Some? ==> Get(obj, "maxConnectors") == Number(r.value.maxConnectors.value)
    ensures r.Success? ==> (r.value.global <==> Get(obj, "global") == Bool(true))
    ensures r.Success? ==> (r.value.description.Some? <==> Get(obj, "description").Str?)
    ensures r.Success? && r.value.description.Some? ==> Get(obj, "description") == Str(r.value.description.value)
  {
    if !Truthy(obj) then Success(Defaults)
    else
      var t := Get(obj, "type");
      if t.Str? && t.s == "global" then Failure(GlobalTypeError)
      else
        var single := Get(obj, "singleType");
        var max := Get(obj, "maxConnectors");
        var global := Get(obj, "global");
        var desc := Get(obj, "description");
        Success(PortConfig(
          if t.Str? then Some(t.s) else None,
          if single.Bool? then single.b else false,
          if max.Number? then Some(max.n) else None,
          if global.Bool? then global.b else false,
          if desc.Str? then Some(desc.s) else None))
  }

  /** An edge from an output to an input, or the origin-only stand-in that
    * `getValues` builds for a global output. */
  datatype Connector =
    | Connector(origin: Port, destination: Port)
    | GlobalSource(origin: Port)

  /** The execution-state token; `Split` yields an independent new token. */
  class FlowState {
    constructor ()
    {
    }

    method Split() returns (s: FlowState)
      ensures fresh(s)
    {
      s := new FlowState();
    }
  }

  /** The owning flow as the node layer sees it: its `_id`. */
  datatype FlowRef = FlowRef(id: string)

  /** An `Error` instance, with the context `error()` attaches, or any other
    * thrown value with the `state` property it may carry. */
  datatype ErrorValue =
    | ErrorObject(message: string, state: FlowState?, node: Node?)
    | Thrown(value: JsValue, state: FlowState?)

  datatype Event =
    | NodeTriggerOut(node: Node, output: Port)              // node.emit('triggerout', output)
    | NodeTrigger(node: Node)                               // node.emit('trigger')
    | PortTrigger(port: Port, conn: Connector, state: FlowState)  // port.emit('trigger', conn, state, ...)
    | PortTriggerDone(port: Port)                           // port.emit('triggerdone')
    | FlowError(flow: FlowRef, error: ErrorValue)           // flow.emit('error', err)

  /** Everything emitted on nodes, ports and flows, in emission order. */
  class EventLog {
    var events: seq<Event>

    constructor ()
      ensures events == []
    {
      events := [];
    }
  }

  /** `XIBLE.generateObjectId`: every call yields an id never issued before. */
  class IdSource {
    var issued: nat

    constructor ()
      ensures issued == 0
    {
      issued := 0;
    }

    method Generate() returns (id: JsValue)
      modifies this
      ensures issued == old(issued) + 1
      ensures id == Number(issued) && Truthy(id)
    {
      issued := issued + 1;
      id := Number(issued);
    }
  }

  /** The outcome of `getValues`: a synchronous throw, a promise still waiting
    * for callbacks, or a resolved promise. */
  datatype Pull =
    | Rejected(error: NodeError)
    | Pending(received: nat)
    | Resolved(values: seq<JsValue>)

  /** The `trigger` requests `getValues` emits, one per connector, all carrying
    * the caller's own state. */
  function TriggerRequests(conns: seq<Connector>, state: FlowState): (r: seq<Event>)
    ensures |r| == |conns|
    ensures forall i :: 0 <= i < |conns| ==> r[i] == PortTrigger(conns[i].origin, conns[i], state)
  {
    seq(|conns|, i requires 0 <= i < |conns| => PortTrigger(conns[i].origin, conns[i], state))
  }

  /** The `triggerdone` signals, one per callback, on the origin that answered. */
  function DoneSignals(conns: seq<Connector>, arrivals: seq<Arrival>): (r: seq<Event>)
    requires forall k :: 0 <= k < |arrivals| ==> arrivals[k].index < |conns|
    ensures |r| == |arrivals|
    ensures forall k :: 0 <= k < |arrivals| ==> r[k] == PortTriggerDone(conns[arrivals[k].index].origin)
  {
    seq(|arrivals|, k requires 0 <= k < |arrivals| => PortTriggerDone(conns[arrivals[k].index].origin))
  }

  /** What `addInput`/`addOutput` is given: a port object or a raw spec. */
  datatype PortArg = Existing(port: Port) | Raw(spec: JsValue) {
    function Ports(): set<Port> {
      if Existing? then {port} else {}
    }
  }

  class Port {
    const direction: Direction
    var name: Option<string>
    var portType: Option<string>
    var singleType: bool
    var maxConnectors: Option<int>
    var global: bool
    var description: Option<string>
    var node: Node?
    var connectors: seq<Connector>

    function Config(): PortConfig
      reads this
    {
      PortConfig(portType, singleType, maxConnectors, global, description)
    }

    constructor (direction: Direction, config: PortConfig)
      ensures this.direction == direction && Config() == config
      ensures name == None && node == null && connectors == []
    {
      this.direction := direction;
      name := None;
      portType := config.portType;
      singleType := config.singleType;
      maxConnectors := config.maxConnectors;
      global := config.global;
      description := config.description;
      node := null;
      connectors := [];
    }

    /** `new NodeInput(obj)` / `new NodeOutput(obj)`. */
    static method New(direction: Direction, obj: JsValue) returns (r: Result<Port, NodeError>)
      ensures r.Success? <==> PortConfigOf(obj).Success?
      ensures r.Failure? ==> r.error == GlobalTypeError
      ensures r.Success? ==> fresh(r.value) && r.value.direction == direction
      ensures r.Success? ==> r.value.Config() == PortConfigOf(obj).value
      ensures r.Success? ==> r.value.name == None && r.value.node == null && r.value.connectors == []
    {
      var config := PortConfigOf(obj);
      if config.Failure? {
        return Failure(config.error);
      }
      var p := new Port(direction, config.value);
      r := Success(p);
    }

    /** `isConnected()`: direct connectors, or for a global port of an attached
      * node, the flow's global outputs of its type (`globalOutputs`). */
    predicate IsConnected(globalOutputs: seq<Port>)
      reads this, node
      ensures |connectors| > 0 ==> IsConnected(globalOutputs)
      ensures !global ==> (IsConnected(globalOutputs) <==> |connectors| > 0)
    {
      |connectors| > 0 || (global && node != null && node.flow.Some? && |globalOutputs| > 0)
    }

    /** The connectors `getValues` pulls from: the input's own, or when it has
      * none and is global, one origin-only stand-in per global output. */
    function Sources(globalOutputs: seq<Port>): (r: seq<Connector>)
      reads this
      ensures |connectors| > 0 ==> r == connectors
      ensures |connectors| == 0 && !global ==> r == []
      ensures |connectors| == 0 && global ==> |r| == |globalOutputs|
      ensures |connectors| == 0 && global ==> forall i :: 0 <= i < |r| ==> r[i] == GlobalSource(globalOutputs[i])
    {
      if |connectors| == 0 && global then
        seq(|globalOutputs|, i requires 0 <= i < |globalOutputs| => GlobalSource(globalOutputs[i]))
      else connectors
    }

    /** `NodeInput.getValues(state)`. The flow's `getGlobalOutputsByType(type)`
      * is the parameter `globalOutputs`; `arrivals` is the order in which the
      * origins call back and the value each passes. */
    method GetValues(state: FlowState?, globalOutputs: seq<Port>, arrivals: seq<Arrival>, log: EventLog)
      returns (r: Pull)
      requires direction == In
      requires WellFormed(arrivals, |Sources(globalOutputs)|)
      modifies log
      ensures state == null ==> r == Rejected(PreconditionError) && log.events == old(log.events)
      ensures state != null && Unattached() ==>
        r.Rejected? && r.error.TypeError? && log.events == old(log.events)
      ensures state != null && !Unattached() && Sources(globalOutputs) == [] ==>
        r == Resolved([]) && log.events == old(log.events)
      ensures state != null && !Unattached() && Sources(globalOutputs) != [] ==>
        && log.events == old(log.events) + TriggerRequests(Sources(globalOutputs), state)
                                         + DoneSignals(Sources(globalOutputs), arrivals)
        && r == (if |arrivals| == |Sources(globalOutputs)| then Resolved(Aggregate(Values(arrivals)))
                 else Pending(|arrivals|))
      ensures r.Resolved? ==> forall i :: 0 <= i < |Sources(globalOutputs)| ==> i in Indices(arrivals)
    {
      if state == null {
        return Rejected(PreconditionError);
      }
      var conns := connectors;
      if |conns| == 0 && global {
        if Unattached() {
          return Rejected(TypeError("Cannot read property 'flow' of null"));
        }
        conns := Sources(globalOutputs);
      }
      assert conns == Sources(globalOutputs);
      if |conns| == 0 {
        return Resolved([]);
      }
      ArrivalsComplete(arrivals, |conns|);
      RequestAll(conns, state, log);
      r := Collect(conns, arrivals, log);
    }

    /** A global input without connectors whose node has no flow to ask for
      * global outputs: `getValues` dereferences null. */
    predicate Unattached()
      reads this, node
    {
      |connectors| == 0 && global && (node == null || node.flow.None?)
    }

    /** The emission loop of `getValues`: every origin is asked for its value
      * with the caller's state. */
    static method RequestAll(conns: seq<Connector>, state: FlowState, log: EventLog)
      modifies log
      ensures log.events == old(log.events) + TriggerRequests(conns, state)
    {
      var i := 0;
      while i < |conns|
        invariant 0 <= i <= |conns|
        invariant log.events == old(log.events) + TriggerRequests(conns[..i], state)
      {
        log.events := log.events + [PortTrigger(conns[i].origin, conns[i], state)];
        assert TriggerRequests(conns[..i + 1], state) == TriggerRequests(conns[..i], state) + [PortTrigger(conns[i].origin, conns[i], state)];
        i := i + 1;
      }
      assert conns[..i] == conns;
    }

    /** The callbacks of `getValues`, in arrival order: each signals
      * `triggerdone` on its origin and contributes its value; the promise
      * resolves with the concatenation when the last one arrives. */
    static method Collect(conns: seq<Connector>, arrivals: seq<Arrival>, log: EventLog) returns (r: Pull)
      requires WellFormed(arrivals, |conns|) && 0 < |conns| && |arrivals| <= |conns|
      modifies log
      ensures log.events == old(log.events) + DoneSignals(conns, arrivals)
      ensures r == (if |arrivals| == |conns| then Resolved(Aggregate(Values(arrivals))) else Pending(|arrivals|))
    {
      var values: seq<JsValue> := [];
      var callbacksReceived := 0;
      var resolved := false;
      var all := Values(arrivals);
      ghost var signals := DoneSignals(conns, arrivals);
      while callbacksReceived < |arrivals|
        invariant 0 <= callbacksReceived <= |arrivals|
        invariant log.events == old(log.events) + signals[..callbacksReceived]
        invariant values == Aggregate(all[..callbacksReceived])
        invariant resolved <==> callbacksReceived == |conns|
      {
        var arrival := arrivals[callbacksReceived];
        log.events := log.events + [PortTriggerDone(conns[arrival.index].origin)];
        assert signals[..callbacksReceived + 1] == signals[..callbacksReceived] + [signals[callbacksReceived]];
        values := values + Contribution(arrival.value);
        assert all[..callbacksReceived + 1][..callbacksReceived] == all[..callbacksReceived];
        callbacksReceived := callbacksReceived + 1;
        if callbacksReceived == |conns| {
          resolved := true;
        }
      }
      assert signals[..|arrivals|] == signals;
      assert all[..|arrivals|] == all;
      if resolved {
        r := Resolved(values);
      } else {
        r := Pending(callbacksReceived);
      }
    }

    /** Every connector's destination is an input attached to a node. */
    predicate Deliverable()
      reads this, set i | 0 <= i < |connectors| && connectors[i].Connector? :: connectors[i].destination
    {
      forall i :: 0 <= i < |connectors| ==>
        connectors[i].Connector? && connectors[i].destination.node != null
    }

    /** `NodeOutput.trigger(state)`: one `triggerout` on the node, then for each
      * connector a `trigger` on the destination node and one on the
      * destination input carrying a freshly split state. Returns the states
      * handed to the branches. */
    method Trigger(state: FlowState?, log: EventLog) returns (r: Result<seq<FlowState>, NodeError>)
      requires direction == Out
      modifies log
      ensures state == null ==> r == Failure(PreconditionError) && log.events == old(log.events)
      ensures state != null && node == null ==> r.Failure? && r.error.TypeError? && log.events == old(log.events)
      ensures r.Success? <==> state != null && node != null && Deliverable()
      ensures old(log.events) <= log.events
      ensures r.Success? ==> |r.value| == |connectors|
      ensures r.Success? ==> forall i :: 0 <= i < |r.value| ==> fresh(r.value[i])
      ensures r.Success? ==> forall i, j :: 0 <= i < j < |r.value| ==> r.value[i] != r.value[j]
      ensures r.Success? ==> |log.events| == |old(log.events)| + 1 + 2 * |connectors|
      ensures r.Success? ==> log.events[|old(log.events)|] == NodeTriggerOut(node, this)
      ensures r.Success? ==> forall i :: 0 <= i < |connectors| ==>
        && log.events[|old(log.events)| + 1 + 2 * i] == NodeTrigger(connectors[i].destination.node)
        && log.events[|old(log.events)| + 2 + 2 * i] == PortTrigger(connectors[i].destination, connectors[i], r.value[i])
    {
      if state == null {
        return Failure(PreconditionError);
      }
      if node == null {
        return Failure(TypeError("Cannot read property 'emit' of null"));
      }
      var base := |log.events|;
      log.events := log.events + [NodeTriggerOut(node, this)];
      var conns := connectors;
      var states: seq<FlowState> := [];
      var i := 0;
      while i < |conns|
        invariant 0 <= i <= |conns|
        invariant |states| == i
        invariant forall k :: 0 <= k < i ==> fresh(states[k])
        invariant forall k, l :: 0 <= k < l < i ==> states[k] != states[l]
        invariant forall k :: 0 <= k < i ==> conns[k].Connector? && conns[k].destination.node != null
        invariant |log.events| == base + 1 + 2 * i
        invariant log.events[..base] == old(log.events)
        invariant log.events[base] == NodeTriggerOut(node, this)
        invariant forall k :: 0 <= k < i ==>
          && log.events[base + 1 + 2 * k] == NodeTrigger(conns[k].destination.node)
          && log.events[base + 2 + 2 * k] == PortTrigger(conns[k].destination, conns[k], states[k])
      {
        var conn := conns[i];
        if !conn.Connector? {
          return Failure(TypeError("Cannot read property 'node' of undefined"));
        }
        if conn.destination.node == null {
          return Failure(TypeError("Cannot read property 'emit' of null"));
        }
        var branch := state.Split();
        log.events := log.events + [NodeTrigger(conn.destination.node), PortTrigger(conn.destination, conn, branch)];
        states := states + [branch];
        i := i + 1;
      }
      r := Success(states);
    }
  }

  /** The node's own view of the vault (`NodeVault`). */
  class NodeVault {
    const node: Node
    const main: MainVault

    constructor (node: Node, main: MainVault)
      ensures this.node == node && this.main == main
    {
      this.node := node;
      this.main := main;
    }

    method Get() returns (v: JsValue)
      modifies main
      ensures node.id == "" ==> v == Undefined && main.disk == old(main.disk) && main.doc == old(main.doc)
      ensures node.id != "" && old(main.doc).Some? ==> main.doc == old(main.doc) && main.disk == old(main.disk)
      ensures node.id != "" && old(main.doc).None? ==> main.disk == Some(Loaded(old(main.disk))) && main.doc == main.disk
      ensures node.id != "" ==> main.doc.Some? && v == Entry(main.doc.value, node.id)
    {
      v := main.Get(node.id);
    }

    /** Stores `obj` as the node's entry and also merges it into `node.data`. */
    method Set(obj: JsValue)
      modifies node, main
      ensures node.data == Assign(old(node.data), obj)
      ensures node.id == old(node.id) && node.inputs == old(node.inputs) && node.outputs == old(node.outputs)
      ensures node.flow == old(node.flow) && node.vault == old(node.vault) && node.name == old(node.name)
      ensures node.id == "" ==> main.disk == old(main.disk) && main.doc == old(main.doc)
      ensures node.id != "" ==> main.disk == Some(Stored(Loaded(old(main.disk)), node.id, obj)) && main.doc == main.disk
    {
      node.data := Assign(node.data, obj);
      main.Set(node.id, obj);
    }
  }

  /** The constructor argument of a node: its manifest merged with its place in
    * a flow. `data` is `None` when falsy; `inputs`/`outputs` list the port
    * specs under their names, in key order. */
  datatype NodeSpec = NodeSpec(
    name: string,
    id: string,
    data: Option<map<string, JsValue>>,
    inputs: seq<(string, JsValue)>,
    outputs: seq<(string, JsValue)>)

  function Names(entries: seq<(string, JsValue)>): (r: seq<string>)
    ensures |r| == |entries|
    ensures forall i :: 0 <= i < |entries| ==> r[i] == entries[i].0
  {
    seq(|entries|, i requires 0 <= i < |entries| => entries[i].0)
  }

  /** Every spec in `entries` makes a valid port. */
  predicate AllPortsValid(entries: seq<(string, JsValue)>) {
    forall i :: 0 <= i < |entries| ==> PortConfigOf(entries[i].1).Success?
  }

  /** The first `|made|` specs of `entries` are registered in `reg`, in order,
    * as the ports of `made`. */
  predicate Enrolled(reg: Registry<Port>, entries: seq<(string, JsValue)>, made: seq<Port>) {
    && |made| <= |entries|
    && |reg.order| == |made|
    && (forall k :: 0 <= k < |made| ==> reg.order[k] == entries[k].0)
    && (forall k :: 0 <= k < |made| ==> entries[k].0 in reg.entries && reg.entries[entries[k].0] == made[k])
  }

  /** Registering the next spec's port extends the listing by that port. */
  lemma EnrolledPut(reg: Registry<Port>, entries: seq<(string, JsValue)>, made: seq<Port>, p: Port)
    requires reg.Valid() && Enrolled(reg, entries, made) && |made| < |entries| && NoDup(Names(entries))
    ensures Enrolled(reg.Put(entries[|made|].0, p), entries, made + [p])
  {
    var names := Names(entries);
    var i := |made|;
    assert forall k :: 0 <= k < i ==> reg.order[k] == names[k];
    reg.PutNext(names, i, p);
    var after := reg.Put(names[i], p);
    var made' := made + [p];
    forall k | 0 <= k < |made'|
      ensures after.order[k] == entries[k].0 && entries[k].0 in after.entries && after.entries[entries[k].0] == made'[k]
    {
      assert names[k] == entries[k].0;
    }
  }

  class Node {
    var name: string
    /** The node's `_id`; "" stands for a missing (falsy) id. */
    var id: string
    var data: map<string, JsValue>
    var flow: Option<FlowRef>
    var inputs: Registry<Port>
    var outputs: Registry<Port>
    var vault: NodeVault?

    ghost predicate Valid()
      reads this
    {
      inputs.Valid() && outputs.Valid()
    }

    constructor Bare(name: string, id: string, data: map<string, JsValue>)
      ensures Valid()
      ensures this.name == name && this.id == id && this.data == data && flow == None && vault == null
      ensures inputs == Registries.Empty() && outputs == Registries.Empty()
    {
      this.name := name;
      this.id := id;
      this.data := data;
      flow := None;
      inputs := Registries.Empty();
      outputs := Registries.Empty();
      vault := null;
    }

    /** The inputs or the outputs. */
    function Ports(dir: Direction): Registry<Port>
      reads this
    {
      if dir == In then inputs else outputs
    }

    /** `new Node(obj)`: registers the ports of the spec, then, for a node with
      * an id, binds the vault and lets stored values overwrite same-named data
      * keys. A port spec of type 'global' makes the constructor throw before
      * the vault is touched. */
    static method FromSpec(spec: NodeSpec, main: MainVault) returns (r: Result<Node, NodeError>)
      requires NoDup(Names(spec.inputs)) && NoDup(Names(spec.outputs))
      modifies main
      ensures r.Success? <==> AllPortsValid(spec.inputs) && AllPortsValid(spec.outputs)
      ensures r.Failure? ==> r.error == GlobalTypeError && main.disk == old(main.disk) && main.doc == old(main.doc)
      ensures r.Success? ==> fresh(r.value) && r.value.Valid()
      ensures r.Success? ==> r.value.name == spec.name && r.value.id == spec.id && r.value.flow == None
      ensures r.Success? ==> r.value.inputs.order == Names(spec.inputs)
      ensures r.Success? ==> forall i :: 0 <= i < |spec.inputs| ==>
        fresh(r.value.inputs.entries[spec.inputs[i].0])
        && r.value.Built(r.value.inputs.entries[spec.inputs[i].0], In, spec.inputs[i])
      ensures r.Success? ==> r.value.outputs.order == Names(spec.outputs)
      ensures r.Success? ==> forall i :: 0 <= i < |spec.outputs| ==>
        fresh(r.value.outputs.entries[spec.outputs[i].0])
        && r.value.Built(r.value.outputs.entries[spec.outputs[i].0], Out, spec.outputs[i])
      ensures r.Success? && spec.id == "" ==>
        r.value.vault == null && r.value.data == spec.data.GetOr(map[])
          && main.disk == old(main.disk) && main.doc == old(main.doc)
      ensures r.Success? && spec.id != "" ==>
        && r.value.vault != null && r.value.vault.node == r.value && r.value.vault.main == main
        && main.doc.Some?
        && (old(main.doc).Some? ==> main.doc == old(main.doc) && main.disk == old(main.disk))
        && (old(main.doc).None? ==> main.disk == Some(Loaded(old(main.disk))) && main.doc == main.disk)
        && r.value.data == Assign(spec.data.GetOr(map[]), Entry(main.doc.value, spec.id))
    {
      var built := WithPorts(spec);
      if built.None? {
        return Failure(GlobalTypeError);
      }
      var n := built.value;
      if n.id != "" {
        n.BindVault(main);
      }
      r := Success(n);
    }

    /** The port-registering part of the constructor. */
    static method WithPorts(spec: NodeSpec) returns (r: Option<Node>)
      requires NoDup(Names(spec.inputs)) && NoDup(Names(spec.outputs))
      ensures r.Some? <==> AllPortsValid(spec.inputs) && AllPortsValid(spec.outputs)
      ensures r.Some? ==> fresh(r.value) && r.value.Valid()
      ensures r.Some? ==> r.value.name == spec.name && r.value.id == spec.id && r.value.flow == None
      ensures r.Some? ==> r.value.vault == null && r.value.data == spec.data.GetOr(map[])
      ensures r.Some? ==> r.value.inputs.order == Names(spec.inputs)
      ensures r.Some? ==> forall i :: 0 <= i < |spec.inputs| ==>
        fresh(r.value.inputs.entries[spec.inputs[i].0])
        && r.value.Built(r.value.inputs.entries[spec.inputs[i].0], In, spec.inputs[i])
      ensures r.Some? ==> r.value.outputs.order == Names(spec.outputs)
      ensures r.Some? ==> forall i :: 0 <= i < |spec.outputs| ==>
        fresh(r.value.outputs.entries[spec.outputs[i].0])
        && r.value.Built(r.value.outputs.entries[spec.outputs[i].0], Out, spec.outputs[i])
    {
      var n := new Node.Bare(spec.name, spec.id, spec.data.GetOr(map[]));
      var ok := n.AddPorts(In, spec.inputs);
      if !ok {
        return None;
      }
      ok := n.AddPorts(Out, spec.outputs);
      if !ok {
        return None;
      }
      r := Some(n);
    }

    /** The `if (this._id)` part of the constructor: bind the vault and merge
      * the stored value into the data. */
    method BindVault(main: MainVault)
      requires id != ""
      modifies this, main
      ensures name == old(name) && id == old(id) && flow == old(flow)
      ensures inputs == old(inputs) && outputs == old(outputs)
      ensures vault != null && vault.node == this && vault.main == main
      ensures main.doc.Some?
      ensures old(main.doc).Some? ==> main.doc == old(main.doc) && main.disk == old(main.disk)
      ensures old(main.doc).None? ==> main.disk == Some(Loaded(old(main.disk))) && main.doc == main.disk
      ensures data == Assign(old(data), Entry(main.doc.value, id))
    {
      var nv := new NodeVault(this, main);
      vault := nv;
      var stored := nv.Get();
      assert stored == Entry(main.doc.value, id);
      data := Assign(data, stored);
    }

    /** `p` is the port the constructor made for the named spec `entry`. */
    predicate Built(p: Port, dir: Direction, entry: (string, JsValue))
      reads p
    {
      && p.direction == dir && p.name == Some(entry.0) && p.node == this
      && PortConfigOf(entry.1).Success? && p.Config() == PortConfigOf(entry.1).value && p.connectors == []
    }

    /** After `|made|` rounds of the constructor's port loop, the first
      * `|made|` specs of `entries` are registered, in order, as `made`. */
    ghost predicate Registered(dir: Direction, entries: seq<(string, JsValue)>, made: seq<Port>)
      reads this, made
    {
      && Valid()
      && Enrolled(Ports(dir), entries, made)
      && AllBuilt(dir, entries, made)
    }

    /** Each port of `made` is the one made for the spec at its position. */
    ghost predicate AllBuilt(dir: Direction, entries: seq<(string, JsValue)>, made: seq<Port>)
      reads made
    {
      |made| <= |entries| && forall k :: 0 <= k < |made| ==> Built(made[k], dir, entries[k])
    }

    lemma AllBuiltSnoc(dir: Direction, entries: seq<(string, JsValue)>, made: seq<Port>, p: Port)
      requires AllBuilt(dir, entries, made) && |made| < |entries|
      requires Built(p, dir, entries[|made|])
      ensures AllBuilt(dir, entries, made + [p])
    {
      var made' := made + [p];
      forall k | 0 <= k < |made'|
        ensures Built(made'[k], dir, entries[k])
      {
        if k < |made| {
          assert made'[k] == made[k];
        }
      }
    }

    /** Everything but the ports of direction `dir`. */
    ghost function Kept(dir: Direction): (string, string, Option<FlowRef>, NodeVault?, map<string, JsValue>, Registry<Port>)
      reads this
    {
      (name, id, flow, vault, data, if dir == In then outputs else inputs)
    }

    /** One round of that loop: a port made from the next raw spec and bound
      * under its name. */
    method AddNext(dir: Direction, entries: seq<(string, JsValue)>, i: nat, ghost made: seq<Port>) returns (r: Option<Port>)
      requires Registered(dir, entries, made) && i == |made| < |entries| && NoDup(Names(entries))
      modifies this
      ensures Kept(dir) == old(Kept(dir))
      ensures r.Some? <==> PortConfigOf(entries[i].1).Success?
      ensures r.None? ==> Valid()
      ensures r.Some? ==> fresh(r.value) && Registered(dir, entries, made + [r.value])
    {
      ghost var before := Ports(dir);
      var added := AddPort(dir, entries[i].0, Raw(entries[i].1));
      if added.Failure? {
        return None;
      }
      EnrolledPut(before, entries, made, added.value);
      assert AllBuilt(dir, entries, made);
      AllBuiltSnoc(dir, entries, made, added.value);
      r := Some(added.value);
    }

    /** The `for (name in obj.inputs)` / `obj.outputs` loop of the constructor. */
    method AddPorts(dir: Direction, entries: seq<(string, JsValue)>) returns (ok: bool)
      requires Valid() && Ports(dir) == Registries.Empty()
      requires NoDup(Names(entries))
      modifies this
      ensures Valid()
      ensures ok <==> AllPortsValid(entries)
      ensures name == old(name) && id == old(id) && flow == old(flow) && vault == old(vault) && data == old(data)
      ensures dir == In ==> outputs == old(outputs)
      ensures dir == Out ==> inputs == old(inputs)
      ensures ok ==> Ports(dir).order == Names(entries)
      ensures ok ==> forall i :: 0 <= i < |entries| ==>
        fresh(Ports(dir).entries[entries[i].0]) && Built(Ports(dir).entries[entries[i].0], dir, entries[i])
    {
      ghost var made: seq<Port> := [];
      var i := 0;
      while i < |entries|
        invariant i == |made| <= |entries|
        invariant Registered(dir, entries, made)
        invariant forall k :: 0 <= k < |made| ==> fresh(made[k])
        invariant Kept(dir) == old(Kept(dir))
      {
        var added := AddNext(dir, entries, i, made);
        if added.None? {
          assert !PortConfigOf(entries[i].1).Success?;
          return false;
        }
        ghost var made' := made + [added.value];
        forall k | 0 <= k < |made'|
          ensures fresh(made'[k])
        {
          if k < |made| {
            assert made'[k] == made[k];
          }
        }
        made := made';
        i := i + 1;
      }
      assert Ports(dir).order == Names(entries);
      ok := true;
    }

    /** `addInput(name, input)`. */
    method AddInput(name: string, arg: PortArg) returns (r: Result<Port, NodeError>)
      requires Valid()
      modifies this, arg.Ports()
      ensures Valid()
      ensures r.Success? <==> (arg.Existing? || PortConfigOf(arg.spec).Success?)
      ensures r.Failure? ==> r.error == GlobalTypeError && inputs == old(inputs)
      ensures outputs == old(outputs) && data == old(data) && id == old(id) && flow == old(flow)
      ensures this.name == old(this.name) && vault == old(vault)
      ensures r.Success? ==> inputs == old(inputs).Put(name, r.value)
      ensures r.Success? ==> GetInputByName(name) == Some(r.value)
      ensures r.Success? ==> r.value.name == Some(name) && r.value.node == this && r.value.direction == In
      ensures r.Success? && arg.Existing? && arg.port.direction == In ==> r.value == arg.port
      ensures r.Success? && arg.Existing? && arg.port.direction == In ==>
        r.value.Config() == old(arg.port.Config()) && r.value.connectors == old(arg.port.connectors)
      ensures r.Success? && !(arg.Existing? && arg.port.direction == In) ==>
        fresh(r.value) && r.value.connectors == []
        && r.value.Config() == (if arg.Existing? then old(arg.port.Config()) else PortConfigOf(arg.spec).value)
    {
      r := AddPort(In, name, arg);
    }

    /** `addOutput(name, output)`. */
    method AddOutput(name: string, arg: PortArg) returns (r: Result<Port, NodeError>)
      requires Valid()
      modifies this, arg.Ports()
      ensures Valid()
      ensures r.Success? <==> (arg.Existing? || PortConfigOf(arg.spec).Success?)
      ensures r.Failure? ==> r.error == GlobalTypeError && outputs == old(outputs)
      ensures inputs == old(inputs) && data == old(data) && id == old(id) && flow == old(flow)
      ensures this.name == old(this.name) && vault == old(vault)
      ensures r.Success? ==> outputs == old(outputs).Put(name, r.value)
      ensures r.Success? ==> GetOutputByName(name) == Some(r.value)
      ensures r.Success? ==> r.value.name == Some(name) && r.value.node == this && r.value.direction == Out
      ensures r.Success? && arg.Existing? && arg.port.direction == Out ==> r.value == arg.port
      ensures r.Success? && arg.Existing? && arg.port.direction == Out ==>
        r.value.Config() == old(arg.port.Config()) && r.value.connectors == old(arg.port.connectors)
      ensures r.Success? && !(arg.Existing? && arg.port.direction == Out) ==>
        fresh(r.value) && r.value.connectors == []
        && r.value.Config() == (if arg.Existing? then old(arg.port.Config()) else PortConfigOf(arg.spec).value)
    {
      r := AddPort(Out, name, arg);
    }

    /** The shared body of `addInput`/`addOutput`: a port of the other kind, or
      * a raw spec, is first run through the port constructor; then the port is
      * bound to this node under `name`, replacing any port of that name. */
    method AddPort(dir: Direction, name: string, arg: PortArg) returns (r: Result<Port, NodeError>)
      requires Valid()
      modifies this, arg.Ports()
      ensures Valid()
      ensures r.Success? <==> (arg.Existing? || PortConfigOf(arg.spec).Success?)
      ensures r.Failure? ==> r.error == GlobalTypeError && inputs == old(inputs) && outputs == old(outputs)
      ensures data == old(data) && id == old(id) && flow == old(flow) && this.name == old(this.name) && vault == old(vault)
      ensures r.Success? && dir == In ==> inputs == old(inputs).Put(name, r.value) && outputs == old(outputs)
      ensures r.Success? && dir == Out ==> outputs == old(outputs).Put(name, r.value) && inputs == old(inputs)
      ensures r.Success? ==> r.value.name == Some(name) && r.value.node == this && r.value.direction == dir
      ensures r.Success? && arg.Existing? && arg.port.direction == dir ==> r.value == arg.port
      ensures r.Success? && arg.Existing? && arg.port.direction == dir ==>
        r.value.Config() == old(arg.port.Config()) && r.value.connectors == old(arg.port.connectors)
      ensures r.Success? && !(arg.Existing? && arg.port.direction == dir) ==>
        fresh(r.value) && r.value.connectors == []
        && r.value.Config() == (if arg.Existing? then old(arg.port.Config()) else PortConfigOf(arg.spec).value)
    {
      var adopted := Adopt(dir, arg);
      if adopted.Failure? {
        return Failure(adopted.error);
      }
      var port := adopted.value;
      port.name := Some(name);
      port.node := this;
      if dir == In {
        inputs := inputs.Put(name, port);
      } else {
        outputs := outputs.Put(name, port);
      }
      r := Success(port);
    }

    /** The port `addInput`/`addOutput` bind: a port of the right kind as it
      * is, otherwise a new one from the other port's settings or the raw spec. */
    static method Adopt(dir: Direction, arg: PortArg) returns (r: Result<Port, NodeError>)
      ensures r.Success? <==> (arg.Existing? || PortConfigOf(arg.spec).Success?)
      ensures r.Failure? ==> r.error == GlobalTypeError
      ensures r.Success? ==> r.value.direction == dir
      ensures r.Success? && arg.Existing? && arg.port.direction == dir ==> r.value == arg.port
      ensures r.Success? && !(arg.Existing? && arg.port.direction == dir) ==>
        fresh(r.value) && r.value.connectors == []
        && r.value.Config() == (if arg.Existing? then arg.port.Config() else PortConfigOf(arg.spec).value)
    {
      if arg.Existing? && arg.port.direction == dir {
        return Success(arg.port);
      }
      var config := if arg.Existing? then Success(arg.port.Config()) else PortConfigOf(arg.spec);
      if config.Failure? {
        return Failure(config.error);
      }
      var port := new Port(dir, config.value);
      r := Success(port);
    }

    /** `getInputs()`: the registered inputs in registration order. */
    method GetInputs() returns (r: seq<Port>)
      requires Valid()
      ensures |r| == |inputs.order|
      ensures forall i :: 0 <= i < |r| ==> r[i] == inputs.entries[inputs.order[i]]
    {
      r := [];
      var i := 0;
      while i < |inputs.order|
        invariant 0 <= i <= |inputs.order|
        invariant |r| == i
        invariant forall k :: 0 <= k < i ==> r[k] == inputs.entries[inputs.order[k]]
      {
        r := r + [inputs.entries[inputs.order[i]]];
        i := i + 1;
      }
    }

    /** `getOutputs()`: the registered outputs in registration order. */
    method GetOutputs() returns (r: seq<Port>)
      requires Valid()
      ensures |r| == |outputs.order|
      ensures forall i :: 0 <= i < |r| ==> r[i] == outputs.entries[outputs.order[i]]
    {
      r := [];
      var i := 0;
      while i < |outputs.order|
        invariant 0 <= i <= |outputs.order|
        invariant |r| == i
        invariant forall k :: 0 <= k < i ==> r[k] == outputs.entries[outputs.order[k]]
      {
        r := r + [outputs.entries[outputs.order[i]]];
        i := i + 1;
      }
    }

    /** `getInputByName(name)`: `None` stands for `undefined`. */
    function GetInputByName(name: string): (r: Option<Port>)
      reads this
      ensures r.Some? <==> name in inputs.entries
      ensures r.Some? ==> r.value == inputs.entries[name]
    {
      inputs.Lookup(name)
    }

    /** `getOutputByName(name)`: `None` stands for `undefined`. */
    function GetOutputByName(name: string): (r: Option<Port>)
      reads this
      ensures r.Some? <==> name in outputs.entries
      ensures r.Some? ==> r.value == outputs.entries[name]
    {
      outputs.Lookup(name)
    }

    /** Whether some input of exactly this type has a connector. The source
      * calls `.some` on the name-keyed input object, which throws; this is the
      * evident intent, taken over `getInputs()`. */
    method HasConnectedInputsOfType(portType: Option<string>) returns (r: bool)
      requires Valid()
      ensures r <==> exists i :: 0 <= i < |inputs.order| && HasConnectedInput(inputs.entries[inputs.order[i]], portType)
    {
      var all := GetInputs();
      r := false;
      var i := 0;
      while i < |all|
        invariant 0 <= i <= |all|
        invariant r <==> exists k :: 0 <= k < i && HasConnectedInput(all[k], portType)
      {
        if HasConnectedInput(all[i], portType) {
          r := true;
        }
        i := i + 1;
      }
    }

    /** The `broadcastWebSocket` message a status operation sends. */
    function Envelope(op: string, status: JsValue): Message
      reads this
      requires flow.Some?
    {
      BroadcastWebSocket(StatusMessage(op, id, flow.value.id, status))
    }

    /** `addProgressBar(status)`: stamps a fresh `_id` (and a start date when
      * none is given) on the status object and returns the id. Class code is
      * strict, so stamping a truthy primitive throws. */
    method AddProgressBar(status: JsValue, now: int, ids: IdSource, ch: Channel) returns (r: Result<JsValue, NodeError>)
      modifies ids, ch
      ensures ch.connected == old(ch.connected)
      ensures !Truthy(status) ==> r == Failure(StatusRequired) && ids.issued == old(ids.issued) && ch.sent == old(ch.sent)
      ensures Truthy(status) ==> ids.issued == old(ids.issued) + 1
      ensures Truthy(status) && !Stampable(status) ==> r == Failure(NotStampable) && ch.sent == old(ch.sent)
      ensures Truthy(status) && Stampable(status) && flow.None? ==> r == Failure(NotAttached) && ch.sent == old(ch.sent)
      ensures Truthy(status) && Stampable(status) && flow.Some? ==>
        && r == Success(Number(ids.issued)) && Truthy(r.value)
        && ch.sent == old(ch.sent) + (if ch.connected then
             [Envelope("xible.node.addProgressBar", ProgressStamp(status, Number(ids.issued), now))]
           else [])
    {
      if !Truthy(status) {
        return Failure(StatusRequired);
      }
      var id := ids.Generate();
      if !Stampable(status) {
        return Failure(NotStampable);
      }
      var stamped := ProgressStamp(status, id, now);
      if flow.None? {
        return Failure(NotAttached);
      }
      ch.Send(Envelope("xible.node.addProgressBar", stamped));
      r := Success(id);
    }

    /** `updateProgressBarById(statusId, status)`: forwards only the id and the
      * percentage. */
    method UpdateProgressBarById(statusId: JsValue, status: JsValue, ch: Channel) returns (r: Result<JsValue, NodeError>)
      modifies ch
      ensures ch.connected == old(ch.connected)
      ensures !Truthy(statusId) || !Truthy(status) ==> r == Failure(IdAndStatusRequired) && ch.sent == old(ch.sent)
      ensures Truthy(statusId) && Truthy(status) && flow.None? ==> r == Failure(NotAttached) && ch.sent == old(ch.sent)
      ensures Truthy(statusId) && Truthy(status) && flow.Some? ==>
        && r == Success(statusId)
        && ch.sent == old(ch.sent) + (if ch.connected then
             [Envelope("xible.node.updateProgressBarById",
                       Object(map["_id" := statusId, "percentage" := Get(status, "percentage")]))]
           else [])
    {
      if !Truthy(statusId) || !Truthy(status) {
        return Failure(IdAndStatusRequired);
      }
      if flow.None? {
        return Failure(NotAttached);
      }
      ch.Send(Envelope("xible.node.updateProgressBarById",
                       Object(map["_id" := statusId, "percentage" := Get(status, "percentage")])));
      r := Success(statusId);
    }

    /** `updateStatusById(statusId, status)`: forwards the id, message and color. */
    method UpdateStatusById(statusId: JsValue, status: JsValue, ch: Channel) returns (r: Result<JsValue, NodeError>)
      modifies ch
      ensures ch.connected == old(ch.connected)
      ensures !Truthy(statusId) || !Truthy(status) ==> r == Failure(IdAndStatusRequired) && ch.sent == old(ch.sent)
      ensures Truthy(statusId) && Truthy(status) && flow.None? ==> r == Failure(NotAttached) && ch.sent == old(ch.sent)
      ensures Truthy(statusId) && Truthy(status) && flow.Some? ==>
        && r == Success(statusId)
        && ch.sent == old(ch.sent) + (if ch.connected then
             [Envelope("xible.node.updateStatusById",
                       Object(map["_id" := statusId, "message" := Get(status, "message"), "color" := Get(status, "color")]))]
           else [])
    {
      if !Truthy(statusId) || !Truthy(status) {
        return Failure(IdAndStatusRequired);
      }
      if flow.None? {
        return Failure(NotAttached);
      }
      ch.Send(Envelope("xible.node.updateStatusById",
                       Object(map["_id" := statusId, "message" := Get(status, "message"), "color" := Get(status, "color")])));
      r := Success(statusId);
    }

    /** `addStatus(status)`: stamps a fresh `_id` on the status object and
      * returns it. */
    method AddStatus(status: JsValue, ids: IdSource, ch: Channel) returns (r: Result<JsValue, NodeError>)
      modifies ids, ch
      ensures ch.connected == old(ch.connected)
      ensures !Truthy(status) ==> r == Failure(StatusRequired) && ids.issued == old(ids.issued) && ch.sent == old(ch.sent)
      ensures Truthy(status) ==> ids.issued == old(ids.issued) + 1
      ensures Truthy(status) && !Stampable(status) ==> r == Failure(NotStampable) && ch.sent == old(ch.sent)
      ensures Truthy(status) && Stampable(status) && flow.None? ==> r == Failure(NotAttached) && ch.sent == old(ch.sent)
      ensures Truthy(status) && Stampable(status) && flow.Some? ==>
        && r == Success(Number(ids.issued)) && Truthy(r.value)
        && ch.sent == old(ch.sent) + (if ch.connected then
             [Envelope("xible.node.addStatus", SetProp(status, "_id", Number(ids.issued)))]
           else [])
    {
      if !Truthy(status) {
        return Failure(StatusRequired);
      }
      var id := ids.Generate();
      if !Stampable(status) {
        return Failure(NotStampable);
      }
      var stamped := SetProp(status, "_id", id);
      if flow.None? {
        return Failure(NotAttached);
      }
      ch.Send(Envelope("xible.node.addStatus", stamped));
      r := Success(id);
    }

    /** `removeStatusById(statusId, timeout)`; `removeProgressBarById` is the
      * same call. */
    method RemoveStatusById(statusId: JsValue, timeout: JsValue, ch: Channel) returns (r: Result<(), NodeError>)
      modifies ch
      ensures ch.connected == old(ch.connected)
      ensures !Truthy(statusId) ==> r == Failure(StatusIdRequired) && ch.sent == old(ch.sent)
      ensures Truthy(statusId) && flow.None? ==> r == Failure(NotAttached) && ch.sent == old(ch.sent)
      ensures Truthy(statusId) && flow.Some? ==>
        && r == Success(())
        && ch.sent == old(ch.sent) + (if ch.connected then
             [Envelope("xible.node.removeStatusById", Object(map["_id" := statusId, "timeout" := timeout]))]
           else [])
    {
      if !Truthy(statusId) {
        return Failure(StatusIdRequired);
      }
      if flow.None? {
        return Failure(NotAttached);
      }
      ch.Send(Envelope("xible.node.removeStatusById", Object(map["_id" := statusId, "timeout" := timeout])));
      r := Success(());
    }

    /** `removeAllStatuses()`: takes no argument, so it only needs a flow. */
    method RemoveAllStatuses(ch: Channel) returns (r: Result<(), NodeError>)
      modifies ch
      ensures ch.connected == old(ch.connected)
      ensures flow.None? ==> r == Failure(NotAttached) && ch.sent == old(ch.sent)
      ensures flow.Some? ==>
        && r == Success(())
        && ch.sent == old(ch.sent) + (if ch.connected then [Envelope("xible.node.removeAllStatuses", Undefined)] else [])
    {
      if flow.None? {
        return Failure(NotAttached);
      }
      ch.Send(Envelope("xible.node.removeAllStatuses", Undefined));
      r := Success(());
    }

    /** `setTracker(status)`: forwards the status object unchanged. */
    method SetTracker(status: JsValue, ch: Channel) returns (r: Result<(), NodeError>)
      modifies ch
      ensures ch.connected == old(ch.connected)
      ensures !Truthy(status) ==> r == Failure(StatusRequired) && ch.sent == old(ch.sent)
      ensures Truthy(status) && flow.None? ==> r == Failure(NotAttached) && ch.sent == old(ch.sent)
      ensures Truthy(status) && flow.Some? ==>
        && r == Success(())
        && ch.sent == old(ch.sent) + (if ch.connected then [Envelope("xible.node.setTracker", status)] else [])
    {
      if !Truthy(status) {
        return Failure(StatusRequired);
      }
      if flow.None? {
        return Failure(NotAttached);
      }
      ch.Send(Envelope("xible.node.setTracker", status));
      r := Success(());
    }

    /** `error(err, state)`: needs a FlowState from `state` or from `err.state`;
      * wraps a non-Error, attaches state and node, shows a red tracker for
      * 7000 ms and emits `error` on the flow. Returns the error as reported.
      * Because the tracker message reads `this.flow._id`, a node without a
      * flow throws there, before the flow guard is reached. */
    method Error(err: ErrorValue, state: FlowState?, ch: Channel, log: EventLog) returns (r: Result<ErrorValue, NodeError>)
      modifies ch, log
      ensures ch.connected == old(ch.connected)
      ensures !HasState(err, state) ==> r.Failure? && ch.sent == old(ch.sent) && log.events == old(log.events)
      ensures !HasState(err, state) && !(err.Thrown? && (err.value.Undefined? || err.value.Null?)) ==>
        r == Failure(PreconditionError)
      ensures HasState(err, state) && flow.None? ==>
        r == Failure(NotAttached) && ch.sent == old(ch.sent) && log.events == old(log.events)
      ensures HasState(err, state) && flow.Some? ==>
        var e := Reported(err, state, this);
        && r == Success(e)
        && ch.sent == old(ch.sent) + (if ch.connected then [Envelope("xible.node.setTracker", Tracker(e.message))] else [])
        && log.events == old(log.events) + [FlowError(flow.value, e)]
      ensures r.Success? ==> r.value.ErrorObject? && r.value.node == this
      ensures r.Success? ==> (r.value.state != null <==> state != null || err.ErrorObject?)
    {
      if !HasState(err, state) {
        if err.Thrown? && (err.value.Undefined? || err.value.Null?) {
          return Failure(TypeError("Cannot read property 'state' of undefined"));
        }
        return Failure(PreconditionError);
      }
      var e := Reported(err, state, this);
      var tracked := SetTracker(Tracker(e.message), ch);
      if tracked.Failure? {
        return Failure(tracked.error);
      }
      if flow.Some? {
        log.events := log.events + [FlowError(flow.value, e)];
      }
      r := Success(e);
    }

    /** `fail(err, state)`: the deprecated form that accepts only a string. */
    method Fail(err: ErrorValue, state: FlowState?, ch: Channel, log: EventLog) returns (r: Result<ErrorValue, NodeError>)
      modifies ch, log
      ensures ch.connected == old(ch.connected)
      ensures !(err.Thrown? && err.value.Str?) ==>
        r == Failure(ArgumentError("\"err\" argument of Node.error(state, err) must be of type \"string\""))
        && ch.sent == old(ch.sent) && log.events == old(log.events)
      ensures err.Thrown? && err.value.Str? && HasState(err, state) && flow.Some? ==>
        var e := Reported(err, state, this);
        && r == Success(e) && e.message == err.value.s
        && ch.sent == old(ch.sent) + (if ch.connected then [Envelope("xible.node.setTracker", Tracker(e.message))] else [])
        && log.events == old(log.events) + [FlowError(flow.value, e)]
      ensures err.Thrown? && err.value.Str? && !(HasState(err, state) && flow.Some?) ==>
        r.Failure? && ch.sent == old(ch.sent) && log.events == old(log.events)
    {
      if !(err.Thrown? && err.value.Str?) {
        return Failure(ArgumentError("\"err\" argument of Node.error(state, err) must be of type \"string\""));
      }
      r := Error(err, state, ch, log);
    }
  }

  /** `Node.flowStateCheck(state)`. */
  function FlowStateCheck(state: FlowState?): (r: Result<bool, NodeError>)
    ensures r.Success? <==> state != null
    ensures r.Success? ==> r.value
    ensures r.Failure? ==> r.error == PreconditionError
  {
    if state == null then Failure(PreconditionError) else Success(true)
  }

  /** The `state` property of the error: only an Error, an object or an array
    * can carry one; `undefined` and `null` have no properties. */
  function CarriedState(err: ErrorValue): (r: FlowState?)
    ensures r != null ==> r == err.state
    ensures err.ErrorObject? ==> r == err.state
    ensures err.Thrown? ==> (r != null <==> Stampable(err.value) && err.state != null)
  {
    if err.ErrorObject? || Stampable(err.value) then err.state else null
  }

  /** The precondition of `error()`: a FlowState is given or the error
    * already carries one. */
  predicate HasState(err: ErrorValue, state: FlowState?) {
    state != null || CarriedState(err) != null
  }

  /** The error `error()` reports: an Error as given, or a new Error whose
    * message is the value converted to a string; with the given state, if
    * any, and the reporting node attached. */
  function Reported(err: ErrorValue, state: FlowState?, node: Node): (r: ErrorValue)
    ensures r.ErrorObject? && r.node == node
    ensures err.ErrorObject? ==> r.message == err.message
    ensures err.Thrown? ==> r.message == ToString(err.value)
    ensures state != null ==> r.state == state
    ensures state == null && err.ErrorObject? ==> r.state == err.state
    ensures state == null && err.Thrown? ==> r.state == null
    ensures r.state != null <==> state != null || (err.ErrorObject? && err.state != null)
  {
    var message := if err.ErrorObject? then err.message else ToString(err.value);
    var attached := if state != null then state else if err.ErrorObject? then err.state else null;
    ErrorObject(message, attached, node)
  }

  /** The tracker `error()` shows: the message in red for 7000 ms. */
  function Tracker(message: string): (r: JsValue)
    ensures Truthy(r)
    ensures Get(r, "message") == Str(message) && Get(r, "color") == Str("red") && Get(r, "timeout") == Number(7000)
  {
    Object(map["message" := Str(message), "color" := Str("red"), "timeout" := Number(7000)])
  }

  /** An input of exactly this type with at least one connector. */
  predicate HasConnectedInput(p: Port, portType: Option<string>)
    reads p
  {
    p.portType == portType && |p.connectors| > 0
  }

  /** Whether a property can be set on the value: objects and arrays. */
  predicate Stampable(v: JsValue) {
    v.Object? || v.Array?
  }

  /** The status object `addProgressBar` sends: the given one with the new
    * `_id`, and with `startDate` set to now when it had none. Properties set
    * on an array do not survive serialisation, so an array is sent as is. */
  function ProgressStamp(status: JsValue, id: JsValue, now: int): (r: JsValue)
    ensures status.Object? ==> Get(r, "_id") == id
    ensures status.Object? && Truthy(Get(status, "startDate")) ==> Get(r, "startDate") == Get(status, "startDate")
    ensures status.Object? && !Truthy(Get(status, "startDate")) ==> Get(r, "startDate") == Number(now)
    ensures forall k :: k != "_id" && k != "startDate" ==> Get(r, k) == Get(status, k)
    ensures !status.Object? ==> r == status
  {
    var stamped := SetProp(status, "_id", id);
    if !Truthy(Get(stamped, "startDate")) then SetProp(stamped, "startDate", Number(now)) else stamped
  }
}

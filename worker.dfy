/** The worker process that runs one flow on behalf of the master: its handlers
  * for `start`, `stop` and `directNodes` messages and for unhandled promise
  * rejections, over one mutable `flow` slot. Loading a node's code, the
  * framework's `init()` and the flow's `initJson`/`start`/`direct` are foreign
  * code; their outcomes are inputs (`Environment`). Flows are numbered in
  * creation order and every call made on one is recorded in `calls`. */
module Supervision {
  import opened Base
  import opened Lists
  import opened Js
  import opened Ipc

  /** What `require[path]` does: throws, or returns an export that is truthy
    * or not. */
  datatype RequireOutcome = Threw(error: JsValue) | Exported(truthy: bool)

  /** How far the `init().then(...)` part of the start chain gets: `init()`
    * rejects, the new flow's `initJson` throws, or the flow is ready to run. */
  datatype InitOutcome = InitRejected(error: JsValue) | InitJsonThrew(error: JsValue) | Ready

  /** How the promise of `flow.start()` / `flow.direct(...)` settles. */
  datatype RunOutcome = RunResolved | RunRejected(error: JsValue)

  datatype Environment = Environment(
    require: map<string, RequireOutcome>,
    init: InitOutcome,
    run: RunOutcome)

  /** A `start` message: the names of the flow's nodes, in order, the path of
    * each node's code, and the optional `directNodes`. */
  datatype StartMessage = StartMessage(flowNodes: seq<string>, paths: map<string, string>, directNodes: JsValue)

  datatype Inbound =
    | StartMsg(start: StartMessage)
    | StopMsg
    | DirectNodesMsg(directNodes: JsValue)
    | OtherMsg

  datatype FlowOp = InitJson | StartFlow | Direct(nodes: JsValue) | StopFlow

  datatype FlowCall = FlowCall(flow: nat, op: FlowOp)

  /** What loading the code of the named node does; a start message lists a
    * path for every node name it uses, and `require` gives the outcome of
    * loading each path. */
  function Outcome(name: string, paths: map<string, string>, require: map<string, RequireOutcome>): RequireOutcome {
    if name in paths && paths[name] in require then require[paths[name]] else Exported(false)
  }

  /** The names whose code loads to a truthy export, in order: the ones that
    * reach `xible.addNode`. */
  function Loaded(names: seq<string>, paths: map<string, string>, require: map<string, RequireOutcome>): (r: seq<string>)
    ensures |r| <= |names|
  {
    if names == [] then []
    else
      var name := names[|names| - 1];
      Loaded(names[..|names| - 1], paths, require)
        + (if Outcome(name, paths, require) == Exported(true) then [name] else [])
  }

  /** The `stop` messages the failed loads send, in order. */
  function LoadStops(names: seq<string>, paths: map<string, string>, require: map<string, RequireOutcome>): (r: seq<Message>)
    ensures |r| <= |names|
    ensures Started !in r
    ensures forall i :: 0 <= i < |r| ==> r[i].Stop?
  {
    if names == [] then []
    else
      var outcome := Outcome(names[|names| - 1], paths, require);
      LoadStops(names[..|names| - 1], paths, require) + (if outcome.Threw? then [Stop(outcome.error)] else [])
  }

  /** `flow.stop()` when a flow exists. */
  function StopCall(flow: Option<nat>): (r: seq<FlowCall>)
    ensures flow.None? <==> r == []
  {
    if flow.Some? then [FlowCall(flow.value, StopFlow)] else []
  }

  /** `flow.stop()`, `n` times over, when a flow exists. */
  function StopCalls(flow: Option<nat>, n: nat): (r: seq<FlowCall>)
    ensures flow.None? ==> r == []
    ensures flow.Some? ==> |r| == n && forall i :: 0 <= i < n ==> r[i] == FlowCall(flow.value, StopFlow)
  {
    if flow.Some? then seq(n, _ => FlowCall(flow.value, StopFlow)) else []
  }

  /** What arrives at the master, given what the worker tried to send. */
  function Delivered(connected: bool, attempted: seq<Message>): (r: seq<Message>)
    ensures connected ==> r == attempted
    ensures !connected ==> r == []
  {
    if connected then attempted else []
  }

  /** What the promise chain of a `start` tries to send. */
  function ChainMessages(env: Environment): (r: seq<Message>)
  {
    match env.init
    case InitRejected(e) => [Stop(e)]
    case InitJsonThrew(e) => [Stop(e)]
    case Ready => if env.run.RunResolved? then [Started] else [Stop(env.run.error)]
  }

  /** The flow an ok `start` runs: `direct` when `directNodes` is truthy. */
  function RunOp(directNodes: JsValue): FlowOp {
    if Truthy(directNodes) then Direct(directNodes) else StartFlow
  }

  /** The calls the promise chain of a `start` makes on flows; `previous` is
    * the flow slot when the chain begins and `created` the new flow's number. */
  function ChainCalls(env: Environment, previous: Option<nat>, created: nat, directNodes: JsValue): (r: seq<FlowCall>)
  {
    match env.init
    case InitRejected(_) => StopCall(previous)
    case InitJsonThrew(_) => [FlowCall(created, InitJson), FlowCall(created, StopFlow)]
    case Ready =>
      [FlowCall(created, InitJson), FlowCall(created, RunOp(directNodes))]
        + (if env.run.RunRejected? then [FlowCall(created, StopFlow)] else [])
  }

  lemma LoadedSnoc(names: seq<string>, name: string, paths: map<string, string>, require: map<string, RequireOutcome>)
    ensures Loaded(names + [name], paths, require)
      == Loaded(names, paths, require) + (if Outcome(name, paths, require) == Exported(true) then [name] else [])
    ensures LoadStops(names + [name], paths, require)
      == LoadStops(names, paths, require)
        + (if Outcome(name, paths, require).Threw? then [Stop(Outcome(name, paths, require).error)] else [])
  {
    assert (names + [name])[..|names|] == names;
  }

  /** Only names from the message reach `addNode`, each at most once when the
    * names were de-duplicated first, and exactly those whose code loads. */
  lemma {:induction false} LoadedSpec(names: seq<string>, paths: map<string, string>, require: map<string, RequireOutcome>)
    ensures NoDup(names) ==> NoDup(Loaded(names, paths, require))
    ensures forall x :: x in Loaded(names, paths, require) <==> x in names && Outcome(x, paths, require) == Exported(true)
  {
    if names != [] {
      var init := names[..|names| - 1];
      var name := names[|names| - 1];
      LoadedSpec(init, paths, require);
      assert names == init + [name];
      if NoDup(names) {
        assert NoDup(init) by {
          forall a, b | 0 <= a < b < |init| ensures init[a] != init[b] {
            assert init[a] == names[a] && init[b] == names[b];
          }
        }
        assert name !in init by {
          forall a | 0 <= a < |init| ensures init[a] != name {
            assert init[a] == names[a];
          }
        }
        var prev := Loaded(init, paths, require);
        var r := Loaded(names, paths, require);
        if Outcome(name, paths, require) == Exported(true) {
          assert r == prev + [name];
          forall a, b | 0 <= a < b < |r| ensures r[a] != r[b] {
            if b == |prev| {
              assert r[a] == prev[a] && prev[a] in init;
            } else {
              assert r[a] == prev[a] && r[b] == prev[b];
            }
          }
        } else {
          assert r == prev;
        }
      }
    }
  }

  /** `Started` is sent exactly when the chain gets through `init`, `initJson`
    * and the run; every failure path sends `stop` with its error instead. */
  lemma StartedOnlyOnSuccess(stops: seq<Message>, env: Environment)
    requires Started !in stops
    ensures Started in stops + ChainMessages(env) <==> env.init.Ready? && env.run.RunResolved?
    ensures env.init.InitRejected? || env.init.InitJsonThrew? ==>
      ChainMessages(env) == [Stop(env.init.error)]
    ensures env.init.Ready? && env.run.RunRejected? ==> ChainMessages(env) == [Stop(env.run.error)]
  {
  }

  /** A throwing load is reported with its `stop`. */
  lemma {:induction false} LoadStopsReport(names: seq<string>, paths: map<string, string>, require: map<string, RequireOutcome>, i: nat)
    requires i < |names| && Outcome(names[i], paths, require).Threw?
    ensures Stop(Outcome(names[i], paths, require).error) in LoadStops(names, paths, require)
  {
    var init := names[..|names| - 1];
    if i < |names| - 1 {
      assert init[i] == names[i];
      LoadStopsReport(init, paths, require, i);
    }
  }

  /** A node whose code throws only skips that node: its `stop` is sent, and
    * when the chain then succeeds, `started` follows it. */
  lemma FailedLoadStillStarts(names: seq<string>, paths: map<string, string>, require: map<string, RequireOutcome>, i: nat, env: Environment)
    requires i < |names| && Outcome(names[i], paths, require).Threw?
    requires env.init.Ready? && env.run.RunResolved?
    ensures var sent := LoadStops(names, paths, require) + ChainMessages(env);
      Stop(Outcome(names[i], paths, require).error) in sent && Started in sent
      && sent[|sent| - 1] == Started
  {
    LoadStopsReport(names, paths, require, i);
  }

  /** On every failure of the chain after a new flow exists, that new flow is
    * stopped last; a successful chain never stops it. */
  lemma FailedChainStopsFlow(env: Environment, previous: Option<nat>, created: nat, directNodes: JsValue)
    requires !env.init.InitRejected?
    ensures var calls := ChainCalls(env, previous, created, directNodes);
      && |calls| >= 2 && calls[0] == FlowCall(created, InitJson)
      && (calls[|calls| - 1] == FlowCall(created, StopFlow) <==> !(env.init.Ready? && env.run.RunResolved?))
      && (env.init.Ready? ==> calls[1] == FlowCall(created, RunOp(directNodes)))
  {
  }

  /** Two deliveries in a row deliver their concatenation. */
  lemma DeliveredAppend(sent: seq<Message>, connected: bool, a: seq<Message>, b: seq<Message>)
    ensures sent + Delivered(connected, a) + Delivered(connected, b) == sent + Delivered(connected, a + b)
  {
  }

  /** One more failed load adds one more `flow.stop()` call. */
  lemma StopCallsStep(calls: seq<FlowCall>, flow: Option<nat>, n: nat, threw: bool)
    ensures calls + StopCalls(flow, n) + (if threw then StopCall(flow) else [])
      == calls + StopCalls(flow, n + (if threw then 1 else 0))
  {
    if threw && flow.Some? {
      assert StopCalls(flow, n + 1) == StopCalls(flow, n) + StopCall(flow);
    }
  }

  class Worker {
    const channel: Channel
    /** The module-level `flow` variable: the number of the current flow. */
    var flow: Option<nat>
    /** How many flows were created so far; flow numbers run from 1. */
    var flowCount: nat
    var calls: seq<FlowCall>
    /** The names passed to `xible.addNode` by the latest `start`. */
    var registered: seq<string>

    /** The slot holds a flow that was created. */
    ghost predicate Valid()
      reads this
    {
      flow.Some? ==> 1 <= flow.value <= flowCount
    }

    /** Start-up: with no flow yet, the worker tells the master it is ready. */
    constructor (channel: Channel)
      modifies channel
      ensures Valid()
      ensures this.channel == channel && flow == None && flowCount == 0 && calls == [] && registered == []
      ensures channel.connected == old(channel.connected)
      ensures channel.sent == old(channel.sent) + Delivered(channel.connected, [Init])
    {
      this.channel := channel;
      flow := None;
      flowCount := 0;
      calls := [];
      registered := [];
      new;
      channel.Send(Init);
    }

    /** `if (flow) flow.stop()`. */
    method StopCurrent()
      requires Valid()
      modifies this
      ensures Valid()
      ensures calls == old(calls) + StopCall(flow)
      ensures flow == old(flow) && flowCount == old(flowCount) && registered == old(registered)
    {
      if flow.Some? {
        calls := calls + [FlowCall(flow.value, StopFlow)];
      }
    }

    /** A failure anywhere: report it to the master, then stop the current
      * flow if there is one. */
    method Abort(error: JsValue)
      requires Valid()
      modifies this, channel
      ensures Valid()
      ensures channel.connected == old(channel.connected)
      ensures channel.sent == old(channel.sent) + Delivered(channel.connected, [Stop(error)])
      ensures calls == old(calls) + StopCall(flow)
      ensures flow == old(flow) && flowCount == old(flowCount) && registered == old(registered)
    {
      channel.Send(Stop(error));
      StopCurrent();
    }

    /** The `unhandledRejection` handler. */
    method OnUnhandledRejection(reason: JsValue)
      requires Valid()
      modifies this, channel
      ensures Valid()
      ensures channel.connected == old(channel.connected)
      ensures channel.sent == old(channel.sent) + Delivered(channel.connected, [Stop(reason)])
      ensures calls == old(calls) + StopCall(flow)
      ensures flow == old(flow) && flowCount == old(flowCount) && registered == old(registered)
    {
      Abort(reason);
    }

    /** `requireNode(path)`: whether the node's code loaded to a truthy export.
      * A throwing `require` is reported and stops the current flow. */
    method RequireNode(path: string, require: map<string, RequireOutcome>) returns (loaded: bool)
      requires Valid() && path in require
      modifies this, channel
      ensures Valid()
      ensures loaded <==> require[path] == Exported(true)
      ensures channel.connected == old(channel.connected)
      ensures channel.sent == old(channel.sent)
        + Delivered(channel.connected, if require[path].Threw? then [Stop(require[path].error)] else [])
      ensures calls == old(calls) + (if require[path].Threw? then StopCall(flow) else [])
      ensures flow == old(flow) && flowCount == old(flowCount) && registered == old(registered)
    {
      var outcome := require[path];
      if outcome.Threw? {
        Abort(outcome.error);
        return false;
      }
      loaded := outcome.truthy;
    }

    /** After resolving `distinct`: what was registered, sent and called. */
    ghost predicate Resolved(m: StartMessage, require: map<string, RequireOutcome>, distinct: seq<string>,
                             sent0: seq<Message>, calls0: seq<FlowCall>)
      reads this, channel
    {
      && registered == Loaded(distinct, m.paths, require)
      && channel.sent == sent0 + Delivered(channel.connected, LoadStops(distinct, m.paths, require))
      && calls == calls0 + StopCalls(flow, |LoadStops(distinct, m.paths, require)|)
    }

    /** The state of the resolving loop after the first `i` names: `structured`
      * holds the distinct names seen so far, which were resolved in order. */
    ghost predicate Resolving(m: StartMessage, require: map<string, RequireOutcome>, i: nat,
                              structured: set<string>, distinct: seq<string>,
                              sent0: seq<Message>, calls0: seq<FlowCall>,
                              flow0: Option<nat>, count0: nat, connected0: bool)
      reads this, channel
    {
      && i <= |m.flowNodes|
      && Valid() && flow == flow0 && flowCount == count0 && channel.connected == connected0
      && distinct == FirstOccurrences(m.flowNodes[..i])
      && (forall x :: x in structured <==> x in distinct)
      && Resolved(m, require, distinct, sent0, calls0)
    }

    /** The resolving loop of `start`: each distinct node name, in order of
      * first appearance, has its code loaded, and is registered when that
      * yields a truthy export. */
    method ResolveNodes(m: StartMessage, require: map<string, RequireOutcome>)
      requires Valid()
      requires forall i :: 0 <= i < |m.flowNodes| ==> m.flowNodes[i] in m.paths && m.paths[m.flowNodes[i]] in require
      modifies this, channel
      ensures Valid()
      ensures registered == Loaded(FirstOccurrences(m.flowNodes), m.paths, require)
      ensures channel.connected == old(channel.connected)
      ensures channel.sent == old(channel.sent)
        + Delivered(channel.connected, LoadStops(FirstOccurrences(m.flowNodes), m.paths, require))
      ensures calls == old(calls) + StopCalls(flow, |LoadStops(FirstOccurrences(m.flowNodes), m.paths, require)|)
      ensures flow == old(flow) && flowCount == old(flowCount)
    {
      ghost var sent0, calls0, flow0, count0, connected0 := channel.sent, calls, flow, flowCount, channel.connected;
      var structured: set<string> := {};
      ghost var distinct: seq<string> := [];
      registered := [];
      var i := 0;
      assert m.flowNodes[..0] == [];
      while i < |m.flowNodes|
        invariant Resolving(m, require, i, structured, distinct, sent0, calls0, flow0, count0, connected0)
        decreases |m.flowNodes| - i
      {
        structured, distinct := ResolveAt(m, require, i, structured, distinct, sent0, calls0, flow0, count0, connected0);
        i := i + 1;
      }
      assert m.flowNodes[..i] == m.flowNodes;
    }

    /** One round of that loop: the `i`th name is resolved unless it was
      * seen before. */
    method ResolveAt(m: StartMessage, require: map<string, RequireOutcome>, i: nat,
                     structured: set<string>, ghost distinct: seq<string>,
                     ghost sent0: seq<Message>, ghost calls0: seq<FlowCall>,
                     ghost flow0: Option<nat>, ghost count0: nat, ghost connected0: bool)
      returns (structured': set<string>, ghost distinct': seq<string>)
      requires i < |m.flowNodes| && m.flowNodes[i] in m.paths && m.paths[m.flowNodes[i]] in require
      requires Resolving(m, require, i, structured, distinct, sent0, calls0, flow0, count0, connected0)
      modifies this, channel
      ensures Resolving(m, require, i + 1, structured', distinct', sent0, calls0, flow0, count0, connected0)
    {
      var name := m.flowNodes[i];
      FirstOccurrencesStep(m.flowNodes, i);
      if name !in structured {
        structured' := structured + {name};
        ResolveOne(m, require, name, distinct, sent0, calls0);
        distinct' := distinct + [name];
      } else {
        structured', distinct' := structured, distinct;
      }
    }

    /** One round of that loop, for a name not seen before. */
    method ResolveOne(m: StartMessage, require: map<string, RequireOutcome>, name: string,
                      ghost distinct: seq<string>, ghost sent0: seq<Message>, ghost calls0: seq<FlowCall>)
      requires Valid() && name in m.paths && m.paths[name] in require
      requires Resolved(m, require, distinct, sent0, calls0)
      modifies this, channel
      ensures Valid() && flow == old(flow) && flowCount == old(flowCount)
      ensures channel.connected == old(channel.connected)
      ensures Resolved(m, require, distinct + [name], sent0, calls0)
    {
      LoadedSnoc(distinct, name, m.paths, require);
      ghost var stops := LoadStops(distinct, m.paths, require);
      var outcome := require[m.paths[name]];
      assert Outcome(name, m.paths, require) == outcome;
      ghost var extra := if outcome.Threw? then [Stop(outcome.error)] else [];
      assert LoadStops(distinct + [name], m.paths, require) == stops + extra;
      var loaded := RequireNode(m.paths[name], require);
      DeliveredAppend(sent0, channel.connected, stops, extra);
      StopCallsStep(calls0, flow, |stops|, outcome.Threw?);
      assert |stops + extra| == |stops| + (if outcome.Threw? then 1 else 0);
      if loaded {
        registered := registered + [name];
      }
    }

    /** The `start` handler: resolve the nodes, then run the promise chain.
      * A new flow replaces the slot once `init()` resolves; before that, a
      * failure stops the previous flow. */
    method HandleStart(m: StartMessage, env: Environment)
      requires Valid()
      requires forall i :: 0 <= i < |m.flowNodes| ==> m.flowNodes[i] in m.paths && m.paths[m.flowNodes[i]] in env.require
      modifies this, channel
      ensures Valid()
      ensures registered == Loaded(FirstOccurrences(m.flowNodes), m.paths, env.require)
      ensures channel.connected == old(channel.connected)
      ensures channel.sent == old(channel.sent)
        + Delivered(channel.connected,
            LoadStops(FirstOccurrences(m.flowNodes), m.paths, env.require) + ChainMessages(env))
      ensures env.init.InitRejected? ==> flow == old(flow) && flowCount == old(flowCount)
      ensures !env.init.InitRejected? ==> flow == Some(old(flowCount) + 1) && flowCount == old(flowCount) + 1
      ensures calls == old(calls)
        + StopCalls(old(flow), |LoadStops(FirstOccurrences(m.flowNodes), m.paths, env.require)|)
        + ChainCalls(env, old(flow), old(flowCount) + 1, m.directNodes)
    {
      ghost var stops := LoadStops(FirstOccurrences(m.flowNodes), m.paths, env.require);
      ghost var sent0, calls0, flow0 := channel.sent, calls, flow;
      ResolveNodes(m, env.require);
      ghost var sent1 := channel.sent;
      assert sent1 == sent0 + Delivered(channel.connected, stops);
      RunChain(env, m.directNodes);
      DeliveredAppend(sent0, channel.connected, stops, ChainMessages(env));
    }

    /** The promise chain of `start`, after the nodes were resolved. */
    method RunChain(env: Environment, directNodes: JsValue)
      requires Valid()
      modifies this, channel
      ensures Valid() && registered == old(registered)
      ensures channel.connected == old(channel.connected)
      ensures channel.sent == old(channel.sent) + Delivered(channel.connected, ChainMessages(env))
      ensures env.init.InitRejected? ==> flow == old(flow) && flowCount == old(flowCount)
      ensures !env.init.InitRejected? ==> flow == Some(old(flowCount) + 1) && flowCount == old(flowCount) + 1
      ensures calls == old(calls) + ChainCalls(env, old(flow), old(flowCount) + 1, directNodes)
    {
      match env.init {
        case InitRejected(e) =>
          Abort(e);
        case InitJsonThrew(e) =>
          flowCount := flowCount + 1;
          flow := Some(flowCount);
          calls := calls + [FlowCall(flowCount, InitJson)];
          Abort(e);
        case Ready =>
          flowCount := flowCount + 1;
          flow := Some(flowCount);
          calls := calls + [FlowCall(flowCount, InitJson), FlowCall(flowCount, RunOp(directNodes))];
          if env.run.RunResolved? {
            channel.Send(Started);
          } else {
            Abort(env.run.error);
          }
      }
    }

    /** The `stop` handler. */
    method HandleStop()
      requires Valid()
      modifies this
      ensures Valid()
      ensures calls == old(calls) + StopCall(flow)
      ensures flow == old(flow) && flowCount == old(flowCount) && registered == old(registered)
    {
      StopCurrent();
    }

    /** The `directNodes` handler: nothing happens without a flow. */
    method HandleDirectNodes(directNodes: JsValue)
      requires Valid()
      modifies this
      ensures Valid()
      ensures flow.None? ==> calls == old(calls)
      ensures flow.Some? ==> calls == old(calls) + [FlowCall(flow.value, Direct(directNodes))]
      ensures flow == old(flow) && flowCount == old(flowCount) && registered == old(registered)
    {
      if flow.Some? {
        calls := calls + [FlowCall(flow.value, Direct(directNodes))];
      }
    }

    /** The `message` handler: dispatch on `message.method`; anything else is
      * ignored. */
    method HandleMessage(msg: Inbound, env: Environment)
      requires Valid()
      requires msg.StartMsg? ==> forall i :: 0 <= i < |msg.start.flowNodes| ==>
        msg.start.flowNodes[i] in msg.start.paths && msg.start.paths[msg.start.flowNodes[i]] in env.require
      modifies this, channel
      ensures Valid()
      ensures channel.connected == old(channel.connected)
      ensures !msg.StartMsg? ==> channel.sent == old(channel.sent) && registered == old(registered)
      ensures !msg.StartMsg? ==> flow == old(flow) && flowCount == old(flowCount)
      ensures msg.StopMsg? ==> calls == old(calls) + StopCall(flow)
      ensures msg.DirectNodesMsg? ==>
        calls == old(calls) + (if flow.Some? then [FlowCall(flow.value, Direct(msg.directNodes))] else [])
      ensures msg.OtherMsg? ==> calls == old(calls)
      ensures msg.StartMsg? ==>
        && registered == Loaded(FirstOccurrences(msg.start.flowNodes), msg.start.paths, env.require)
        && channel.sent == old(channel.sent)
          + Delivered(channel.connected,
              LoadStops(FirstOccurrences(msg.start.flowNodes), msg.start.paths, env.require) + ChainMessages(env))
      ensures msg.StartMsg? && env.init.InitRejected? ==> flow == old(flow) && flowCount == old(flowCount)
      ensures msg.StartMsg? && !env.init.InitRejected? ==>
        flow == Some(old(flowCount) + 1) && flowCount == old(flowCount) + 1
      ensures msg.StartMsg? ==>
        calls == old(calls)
          + StopCalls(old(flow), |LoadStops(FirstOccurrences(msg.start.flowNodes), msg.start.paths, env.require)|)
          + ChainCalls(env, old(flow), old(flowCount) + 1, msg.start.directNodes)
    {
      match msg {
        case StartMsg(start) => HandleStart(start, env);
        case StopMsg => HandleStop();
        case DirectNodesMsg(nodes) => HandleDirectNodes(nodes);
        case OtherMsg =>
      }
    }
  }
}

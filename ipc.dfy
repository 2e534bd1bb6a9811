/** The worker's channel to its parent process: `process.connected` and
  * `process.send`. A send while detached is silently dropped. */
module Ipc {
  import opened Js

  /** The payload of a `broadcastWebSocket` relay: one status operation of one
    * node in one flow. `status` is `Undefined` for `removeAllStatuses`. */
  datatype StatusMessage = StatusMessage(op: string, nodeId: string, flowId: string, status: JsValue)

  datatype Message =
    | Init                                   // {method: 'init'}
    | Started                                // {method: 'started'}
    | Stop(error: JsValue)                   // {method: 'stop', error}
    | BroadcastWebSocket(message: StatusMessage)

  class Channel {
    var connected: bool
    var sent: seq<Message>

    constructor (connected: bool)
      ensures this.connected == connected && sent == []
    {
      this.connected := connected;
      sent := [];
    }

    /** `if (process.connected) process.send(m)`. */
    method Send(m: Message)
      modifies this
      ensures connected == old(connected)
      ensures sent == if connected then old(sent) + [m] else old(sent)
    {
      if connected {
        sent := sent + [m];
      }
    }
  }
}

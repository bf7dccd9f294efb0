/** The messages of the tunnel between center, proxies and agents, and the few
    types every other module shares. */
module Tunnel {

  datatype Option<+T> = None | Some(value: T)

  type Host = string
  type RequestId = string
  type StreamId = nat

  datatype NodeType = Agent | Proxy

  /** What a node says about itself besides its name and its path. */
  datatype Info = Info(ip: string, os: string, version: string)

  datatype Message =
    | RegisterRequest(hostname: Host, nodeType: NodeType, path: seq<Host>, info: Info)
    | RegisterAck(success: bool)
    | Heartbeat(timestamp: int)
    | HeartbeatAck(timestamp: int)
    | ToolRequest(requestId: RequestId, tool: string, args: string, target: Host)
    | ToolResponse(requestId: RequestId, resultJson: string)
    | ErrorResponse(requestId: RequestId, code: string, message: string)
    | CancelRequest(requestId: RequestId)
  {
    /** The two payloads that answer a tool request. */
    predicate IsReply() {
      ToolResponse? || ErrorResponse?
    }
  }
}

/** The frames of the Harbor remote-tool protocol, after JSON decoding. Request ids are the number
    in "r<n>". A frame that fails its structural checks is `Garbled`. */
module HarborWire {
  import opened HarborMetrics

  datatype HostFrame =
    | Request(id: nat)
    | Cancel(id: nat)
    | Checkpoint(metrics: Partial)
    | FinalFrame(final: Final)
    | HostError

  datatype PeerFrame =
    | Hello
    | Result(id: nat, text: string)
    | Cancelled(id: nat)
    | ToolError(id: nat, text: string)
    | PeerError
    | Garbled
}

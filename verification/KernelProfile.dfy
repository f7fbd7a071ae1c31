/** The parts of a profile that the repairs before a kernel restart edit. */
module KernelProfile {
  import opened Text

  datatype Kind = Mixed | Http | Socks | Other(name: string)

  datatype Listen = Listen(host: string, port: Option<int>)

  /** The part of an inbound named after its own type; `rest` is everything but `listen`. */
  datatype Block = Block(listen: Option<Listen>, rest: string)

  datatype Inbound = Inbound(id: string, kind: Kind, tag: string, enable: bool, block: Option<Block>)

  datatype Experimental = Missing | NoController | Controller(address: string)

  /** An entry of a nested outbound list. */
  datatype Item = Item(id: Option<string>, rest: string)

  datatype Outbound = Outbound(id: Option<string>, outbounds: Option<seq<Item>>, rest: string)

  class Profile {
    var inbounds: seq<Inbound>
    var experimental: Experimental
    var outbounds: Option<seq<Outbound>>

    constructor (inbounds: seq<Inbound>, experimental: Experimental, outbounds: Option<seq<Outbound>>)
      ensures this.inbounds == inbounds && this.experimental == experimental && this.outbounds == outbounds
    {
      this.inbounds, this.experimental, this.outbounds := inbounds, experimental, outbounds;
    }
  }
}

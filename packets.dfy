/** The packet record passed from the capture source to the feature extractors. */
module Packets {
  import opened Wrappers

  newtype byte = x: int | 0 <= x < 256

  /**
   * One packet as a Python dictionary. The capture loop fills in `timestamp`, `raw_data`,
   * `length` and `interface`; the feature extractors also look for `protocol`, `src_port`,
   * `dst_port` and `tcp_flags`. Any key may be missing, which is `None` here.
   */
  datatype PacketRecord = PacketRecord(
    timestamp: Option<real>,
    rawData: Option<seq<byte>>,
    length: Option<int>,
    iface: Option<string>,
    protocol: Option<string>,
    srcPort: Option<int>,
    dstPort: Option<int>,
    tcpFlags: Option<int>)
}

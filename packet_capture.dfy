/**
 * The bounded capture queue: frames read from a raw socket become packet records that
 * wait, oldest first, in a queue of at most `maxPps` records until the consumer takes them.
 * The socket itself and the capture thread are outside the model: one iteration of the
 * capture loop is a method that is handed the frame and its arrival time.
 */
module PacketCapturing {
  import opened Wrappers
  import opened PySeq
  import opened Packets

  /** The record the capture loop builds for a frame read from interface `iface`. */
  function CaptureRecord(raw: seq<byte>, timestamp: real, iface: string): (p: PacketRecord)
    ensures p.rawData == Some(raw) && p.length == Some(|raw|)
    ensures p.iface == Some(iface) && p.timestamp == Some(timestamp)
    ensures p.protocol.None? && p.srcPort.None? && p.dstPort.None? && p.tcpFlags.None?
  {
    PacketRecord(Some(timestamp), Some(raw), Some(|raw|), Some(iface), None, None, None, None)
  }

  class PacketCapture {
    const iface: string
    const maxPps: nat
    /** `packets_queue`, front first. */
    var queue: seq<PacketRecord>
    var isCapturing: bool

    ghost predicate Valid()
      reads this
    {
      |queue| <= maxPps
    }

    /** `deque(maxlen=max_pps)` refuses a negative bound, so `maxPps` is a `nat`. */
    constructor (iface: string, maxPps: nat)
      ensures Valid()
      ensures this.iface == iface && this.maxPps == maxPps
      ensures queue == [] && !isCapturing
    {
      this.iface := iface;
      this.maxPps := maxPps;
      queue := [];
      isCapturing := false;
    }

    /**
     * `start_capture`: the flag is raised only once the raw socket is open and bound;
     * a failure is logged and leaves the flag as it was.
     */
    method StartCapture(socketOpened: bool)
      requires Valid()
      modifies this
      ensures Valid()
      ensures isCapturing == (socketOpened || old(isCapturing))
      ensures queue == old(queue)
    {
      if socketOpened {
        isCapturing := true;
      }
    }

    /**
     * One iteration of `_capture_loop`, which runs only while capturing. The record is
     * appended at the back when there is room; otherwise it is dropped and the queue,
     * including its oldest record, stays as it was.
     */
    method CaptureStep(raw: seq<byte>, timestamp: real)
      requires Valid()
      modifies this
      ensures Valid()
      ensures isCapturing == old(isCapturing)
      ensures queue == if old(isCapturing) && |old(queue)| < maxPps
                       then old(queue) + [CaptureRecord(raw, timestamp, iface)]
                       else old(queue)
    {
      if !isCapturing {
        return;
      }
      var packetData := CaptureRecord(raw, timestamp, iface);
      if |queue| < maxPps {
        queue := queue + [packetData];
      }
    }

    /**
     * `get_packets(count)`: pops `min(count, len)` records from the front (none when
     * `count` is not positive) and returns them in arrival order.
     */
    method GetPackets(count: int) returns (packets: seq<PacketRecord>)
      requires Valid()
      modifies this
      ensures Valid()
      ensures isCapturing == old(isCapturing)
      ensures var n := Max(Min(count, |old(queue)|), 0);
        packets == old(queue)[..n] && queue == old(queue)[n..]
    {
      packets := [];
      var n := Min(count, |queue|);
      var i := 0;
      while i < n
        invariant 0 <= i <= Max(n, 0)
        invariant packets == old(queue)[..i] && queue == old(queue)[i..]
        invariant isCapturing == old(isCapturing)
      {
        if |queue| > 0 {
          packets := packets + [queue[0]];
          queue := queue[1..];
        }
        i := i + 1;
      }
    }

    /** `stop_capture`: lowers the flag, which ends the capture loop; the queue is kept. */
    method StopCapture()
      requires Valid()
      modifies this
      ensures Valid()
      ensures !isCapturing && queue == old(queue)
    {
      isCapturing := false;
    }
  }
}

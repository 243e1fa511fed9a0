/**
 * The window feature engineer: gates a batch of packet records on the window size,
 * turns the first `windowSize` of them into ten-entry vectors, and aggregates them into
 * seven statistics per column. It also owns a scaler that is fitted on the first vector
 * it is asked to normalise and never again.
 */
module FeatureEngineering {
  import opened Wrappers
  import opened PySeq
  import opened Packets
  import opened Statistics

  /** The statistics of the window aggregate, in block order. */
  const EngineerStats: seq<StatKind> :=
    [Mean, Std, Median, Maximum, Minimum, Percentile(75), Percentile(25)]

  /** The four values of one `np.random.normal(0, 1, 4)` draw. */
  type NormalDraw = (real, real, real, real)

  /**
   * Python's `t % 1000` on a float: the remainder takes the sign of the divisor, so it
   * lies in `[0, 1000)` and differs from `t` by a whole multiple of 1000.
   */
  function ModThousand(t: real): (r: real)
    ensures 0.0 <= r < 1000.0
    ensures ((t - r) / 1000.0).Floor as real == (t - r) / 1000.0
  {
    var q := (t / 1000.0).Floor;
    assert q as real <= t / 1000.0 < q as real + 1.0;
    var r := t - 1000.0 * q as real;
    assert (t - r) / 1000.0 == q as real;
    r
  }

  /**
   * The vector `_extract_packet_features` builds for one record: the raw length, the
   * protocol name's `hash` modulo 10, the timestamp modulo 1000, both ports modulo 100,
   * the TCP flags, and four normal draws. A missing key takes the default the source
   * passes to `get`. `strHash` stands for Python's per-process randomised string hash.
   */
  function PacketVector(p: PacketRecord, strHash: string -> int, noise: NormalDraw): (v: seq<real>)
    ensures |v| == Width
  {
    [ (if p.rawData.Some? then |p.rawData.value| else 0) as real,
      (strHash(p.protocol.GetOr("unknown")) % 10) as real,
      ModThousand(p.timestamp.GetOr(0.0)),
      (p.srcPort.GetOr(0) % 100) as real,
      (p.dstPort.GetOr(0) % 100) as real,
      p.tcpFlags.GetOr(0) as real,
      noise.0, noise.1, noise.2, noise.3 ]
  }

  /** The deterministic entries of a packet's vector and their ranges. */
  lemma PacketVectorFields(p: PacketRecord, strHash: string -> int, noise: NormalDraw)
    ensures var v := PacketVector(p, strHash, noise);
      v[0] == (if p.rawData.Some? then |p.rawData.value| else 0) as real &&
      0.0 <= v[1] < 10.0 && 0.0 <= v[2] < 1000.0 &&
      v[3] == (p.srcPort.GetOr(0) % 100) as real && 0.0 <= v[3] < 100.0 &&
      v[4] == (p.dstPort.GetOr(0) % 100) as real && 0.0 <= v[4] < 100.0 &&
      v[5] == p.tcpFlags.GetOr(0) as real &&
      v[6..] == [noise.0, noise.1, noise.2, noise.3]
  {
  }

  /** The vectors of the examined packets; the `i`-th takes the `i`-th normal draw. */
  function WindowRows(examined: seq<PacketRecord>, strHash: string -> int, normals: nat -> NormalDraw)
    : (rows: seq<seq<real>>)
    ensures |rows| == |examined| && Rectangular(rows)
  {
    var rows := seq(|examined|, i requires 0 <= i < |examined| => PacketVector(examined[i], strHash, normals(i)));
    assert forall i :: 0 <= i < |rows| ==> rows[i] == PacketVector(examined[i], strHash, normals(i));
    rows
  }

  /**
   * `create_traffic_features` of the engineer: `None` when fewer than `windowSize` packets
   * are offered, otherwise the aggregate of the packets in `packets[:windowSize]` (Python's
   * slice, so a negative `windowSize` drops packets from the end), `None` if that leaves none.
   */
  function WindowFeatures(packets: seq<PacketRecord>, windowSize: int, strHash: string -> int,
                          normals: nat -> NormalDraw, stat: Statistic): (r: Option<seq<real>>)
  {
    if |packets| < windowSize then None
    else
      var rows := WindowRows(Prefix(packets, windowSize), strHash, normals);
      if |rows| == 0 then None else Some(Aggregate(rows, EngineerStats, stat))
  }

  /** For a positive window, the result is absent exactly when the batch is too small. */
  lemma WindowGate(packets: seq<PacketRecord>, windowSize: int, strHash: string -> int,
                   normals: nat -> NormalDraw, stat: Statistic)
    requires windowSize >= 1
    ensures WindowFeatures(packets, windowSize, strHash, normals, stat).None? <==> |packets| < windowSize
  {
  }

  /**
   * For a window of zero or less the gate always passes, and the result is absent exactly
   * when the window is zero or, being negative, drops every packet.
   */
  lemma EmptyWindow(packets: seq<PacketRecord>, windowSize: int, strHash: string -> int,
                    normals: nat -> NormalDraw, stat: Statistic)
    requires windowSize <= 0
    ensures WindowFeatures(packets, windowSize, strHash, normals, stat).None? <==>
      windowSize == 0 || |packets| <= -windowSize
  {
  }

  /** A present result has seven blocks of ten, one per statistic of `EngineerStats` in order. */
  lemma WindowShape(packets: seq<PacketRecord>, windowSize: int, strHash: string -> int,
                    normals: nat -> NormalDraw, stat: Statistic)
    requires WindowFeatures(packets, windowSize, strHash, normals, stat).Some?
    ensures var r := WindowFeatures(packets, windowSize, strHash, normals, stat).value;
      var rows := WindowRows(Prefix(packets, windowSize), strHash, normals);
      |r| == 70 &&
      forall k :: 0 <= k < |EngineerStats| ==> r[Width * k..Width * (k + 1)] == StatBlock(rows, EngineerStats[k], stat)
  {
  }

  /** Packets after the first `windowSize` have no influence on the result. */
  lemma OnlyWindowCounts(packets: seq<PacketRecord>, more: seq<PacketRecord>, windowSize: int,
                         strHash: string -> int, normals: nat -> NormalDraw, stat: Statistic)
    requires 0 <= windowSize <= |packets|
    ensures WindowFeatures(packets + more, windowSize, strHash, normals, stat)
         == WindowFeatures(packets, windowSize, strHash, normals, stat)
  {
    assert Prefix(packets + more, windowSize) == Prefix(packets, windowSize);
  }

  /**
   * A `StandardScaler` fitted on a single row has that row as its mean and zero variance,
   * which the scaler replaces by unit scale: transforming is subtracting the fitted row.
   * scikit-learn raises for a row of no features or of a different number of features.
   */
  function Standardise(mean: seq<real>, x: seq<real>): (r: Option<seq<real>>)
    ensures r.Some? <==> |x| > 0 && |x| == |mean|
  {
    if |x| == 0 || |x| != |mean| then None
    else Some(seq(|x|, i requires 0 <= i < |x| => x[i] - mean[i]))
  }

  /** The row the scaler was fitted on normalises to all zeros. */
  lemma FittedRowIsZero(x: seq<real>)
    requires |x| > 0
    ensures Standardise(x, x) == Some(seq(|x|, _ => 0.0))
  {
    var z := Standardise(x, x).value;
    var zero: seq<real> := seq(|x|, _ => 0.0);
    assert forall i :: 0 <= i < |x| ==> z[i] == zero[i];
    assert z == zero;
  }

  class FeatureEngineer {
    /** Whether the scaler has been fitted. */
    var isFitted: bool
    /** The fitted scaler's `mean_`: the row it was fitted on. */
    var mean: seq<real>

    constructor ()
      ensures !isFitted && mean == []
    {
      isFitted := false;
      mean := [];
    }

    /** `_extract_packet_features`: writes the slots of a fresh zero vector. */
    method ExtractPacketFeatures(packet: PacketRecord, strHash: string -> int, noise: NormalDraw)
      returns (v: seq<real>)
      ensures v == PacketVector(packet, strHash, noise)
    {
      var features := new real[Width](_ => 0.0);
      features[0] := (if packet.rawData.Some? then |packet.rawData.value| else 0) as real;
      features[1] := (strHash(packet.protocol.GetOr("unknown")) % 10) as real;
      features[2] := ModThousand(packet.timestamp.GetOr(0.0));
      features[3] := (packet.srcPort.GetOr(0) % 100) as real;
      features[4] := (packet.dstPort.GetOr(0) % 100) as real;
      features[5] := packet.tcpFlags.GetOr(0) as real;
      features[6], features[7], features[8], features[9] := noise.0, noise.1, noise.2, noise.3;
      v := features[..];
    }

    /** `create_traffic_features`: the gate, then one vector per examined packet, then the aggregate. */
    method CreateTrafficFeatures(packets: seq<PacketRecord>, windowSize: int, strHash: string -> int,
                                 normals: nat -> NormalDraw, stat: Statistic)
      returns (r: Option<seq<real>>)
      ensures r == WindowFeatures(packets, windowSize, strHash, normals, stat)
    {
      if |packets| < windowSize {
        return None;
      }
      var examined := Prefix(packets, windowSize);
      var featuresList: seq<seq<real>> := [];
      var i := 0;
      while i < |examined|
        invariant 0 <= i <= |examined|
        invariant |featuresList| == i
        invariant forall k :: 0 <= k < i ==> featuresList[k] == PacketVector(examined[k], strHash, normals(k))
      {
        var v := ExtractPacketFeatures(examined[i], strHash, normals(i));
        featuresList := featuresList + [v];
        i := i + 1;
      }
      assert featuresList == WindowRows(examined, strHash, normals);
      if |featuresList| == 0 {
        return None;
      }
      return Some(Aggregate(featuresList, EngineerStats, stat));
    }

    /**
     * `normalize_features`: fits the scaler on this row if it is not fitted yet, then
     * transforms the row. A failed fit (a row of no features) raises before `isFitted`
     * is set; a failed transform raises after it.
     */
    method NormalizeFeatures(features: seq<real>) returns (r: Option<seq<real>>)
      modifies this
      ensures old(isFitted) ==> isFitted && mean == old(mean)
      ensures !old(isFitted) && |features| > 0 ==> isFitted && mean == features
      ensures !old(isFitted) && |features| == 0 ==> !isFitted && mean == old(mean)
      ensures r == (if isFitted then Standardise(mean, features) else None)
    {
      if !isFitted {
        if |features| == 0 {
          return None;
        }
        mean := features;
        isFitted := true;
      }
      r := Standardise(mean, features);
    }
  }
}

/**
 * The firewall engine's block registry as a value: the set of blocked addresses and the
 * map from each of them to the second it was blocked at. Blocking is an idempotent insert
 * followed by one "add rule" call; a cleanup pass removes an expired entry only when its
 * "remove rule" call succeeds. The engine's methods are proved against these functions,
 * and what the engine promises over many calls is proved here.
 */
module BlockRegistry {
  import opened Wrappers

  /** `block_duration`: an entry older than this many seconds is expired. */
  const BlockDuration: int := 3600

  /** `blocked_ips` and `suspicious_ips`, the latter holding the time of each block. */
  datatype Registry = Registry(blocked: set<string>, stamps: map<string, int>)

  /** The registry of a new engine. */
  const EmptyRegistry: Registry := Registry({}, map[])

  /** The two structures name the same addresses, and the empty address is never blocked. */
  predicate Inv(r: Registry) {
    r.blocked == r.stamps.Keys && "" !in r.blocked
  }

  /** The two iptables rule operations. */
  datatype RuleAction = AddRule | RemoveRule

  /** One iptables call, with the outcome `check=True` reported for it. */
  datatype RuleCall = RuleCall(action: RuleAction, ip: string, succeeded: bool)

  /** The argument vector handed to `subprocess.run` for a call. */
  function Argv(call: RuleCall): (argv: seq<string>)
    ensures |argv| == 7 && argv[0] == "iptables" && argv[4] == call.ip
    ensures argv[1] == "-A" <==> call.action == AddRule
    ensures argv[1] == "-D" <==> call.action == RemoveRule
    ensures argv[2..4] == ["INPUT", "-s"] && argv[5..] == ["-j", "DROP"]
  {
    ["iptables", if call.action == AddRule then "-A" else "-D", "INPUT", "-s", call.ip, "-j", "DROP"]
  }

  /** `_block_threat` goes past its guard: the address is present, non-empty and not yet blocked. */
  predicate Admits(r: Registry, srcIp: Option<string>) {
    srcIp.Some? && srcIp.value != "" && srcIp.value !in r.blocked
  }

  /** The registry after `_block_threat(srcIp)` at second `now`. */
  function AfterBlock(r: Registry, srcIp: Option<string>, now: int): Registry {
    if Admits(r, srcIp) then Registry(r.blocked + {srcIp.value}, r.stamps[srcIp.value := now]) else r
  }

  /** The calls `_block_threat(srcIp)` makes: one "add rule" call past the guard, none otherwise. */
  function BlockCalls(r: Registry, srcIp: Option<string>, addSucceeds: bool): seq<RuleCall> {
    if Admits(r, srcIp) then [RuleCall(AddRule, srcIp.value, addSucceeds)] else []
  }

  /** The addresses a cleanup pass at second `now` finds expired: blocked more than an hour ago. */
  function Expired(r: Registry, now: int): (e: set<string>)
    ensures e <= r.stamps.Keys
    ensures forall ip :: ip in r.stamps ==> (ip in e <==> now - r.stamps[ip] > BlockDuration)
  {
    set ip | ip in r.stamps && now - r.stamps[ip] > BlockDuration
  }

  /** The candidates whose "remove rule" call succeeds. */
  function Removed(candidates: set<string>, removeSucceeds: string -> bool): set<string> {
    set ip | ip in candidates && removeSucceeds(ip)
  }

  /** The registry without the addresses `ips`, in both structures. */
  function Unblocked(r: Registry, ips: set<string>): Registry {
    Registry(r.blocked - ips, r.stamps - ips)
  }

  /** The registry after one pass of `_cleanup_loop` at second `now`. */
  function AfterCleanup(r: Registry, now: int, removeSucceeds: string -> bool): Registry {
    Unblocked(r, Removed(Expired(r, now), removeSucceeds))
  }

  /** The addresses a sequence of calls names. */
  function CallIps(calls: seq<RuleCall>): set<string> {
    set c | c in calls :: c.ip
  }

  lemma CallIpsAppend(calls: seq<RuleCall>, call: RuleCall)
    ensures CallIps(calls + [call]) == CallIps(calls) + {call.ip}
  {
    assert forall c :: c in calls + [call] <==> c in calls || c == call;
  }

  /** Handling one more candidate removes it too exactly when its call succeeds. */
  lemma UnblockedStep(r: Registry, done: set<string>, ip: string, removeSucceeds: string -> bool)
    ensures Unblocked(r, Removed(done + {ip}, removeSucceeds)) ==
      if removeSucceeds(ip) then Unblocked(Unblocked(r, Removed(done, removeSucceeds)), {ip})
      else Unblocked(r, Removed(done, removeSucceeds))
  {
    var before := Removed(done, removeSucceeds);
    if removeSucceeds(ip) {
      assert Removed(done + {ip}, removeSucceeds) == before + {ip};
      assert r.stamps - (before + {ip}) == (r.stamps - before) - {ip};
    } else {
      assert Removed(done + {ip}, removeSucceeds) == before;
    }
  }

  /**
   * One step of a cleanup pass over the candidates `expired`: handling `ip`, one of those
   * still `pending`, adds its call and, when that call succeeds, its removal.
   */
  lemma CleanupStep(r: Registry, expired: set<string>, pending: set<string>, ip: string,
                    calls: seq<RuleCall>, removeSucceeds: string -> bool)
    requires pending <= expired && ip in pending
    requires CallIps(calls) == expired - pending && |calls| == |expired - pending|
    ensures var calls' := calls + [RuleCall(RemoveRule, ip, removeSucceeds(ip))];
      CallIps(calls') == expired - (pending - {ip}) && |calls'| == |expired - (pending - {ip})|
    ensures Unblocked(r, Removed(expired - (pending - {ip}), removeSucceeds)) ==
      if removeSucceeds(ip) then Unblocked(Unblocked(r, Removed(expired - pending, removeSucceeds)), {ip})
      else Unblocked(r, Removed(expired - pending, removeSucceeds))
  {
    var done := expired - pending;
    assert ip !in done && expired - (pending - {ip}) == done + {ip};
    assert |done + {ip}| == |done| + 1;
    UnblockedStep(r, done, ip, removeSucceeds);
    CallIpsAppend(calls, RuleCall(RemoveRule, ip, removeSucceeds(ip)));
  }

  /** Blocking keeps the invariant. */
  lemma BlockKeepsInv(r: Registry, srcIp: Option<string>, now: int)
    requires Inv(r)
    ensures Inv(AfterBlock(r, srcIp, now))
  {
  }

  /** A cleanup pass keeps the invariant. */
  lemma CleanupKeepsInv(r: Registry, now: int, removeSucceeds: string -> bool)
    requires Inv(r)
    ensures Inv(AfterCleanup(r, now, removeSucceeds))
  {
    var gone := Removed(Expired(r, now), removeSucceeds);
    assert (r.stamps - gone).Keys == r.stamps.Keys - gone;
  }

  /**
   * A missing, empty or already blocked address changes nothing and makes no call; in
   * particular a second detection does not refresh the time of the first block.
   */
  lemma RejectedBlock(r: Registry, srcIp: Option<string>, now: int, addSucceeds: bool)
    requires srcIp.None? || srcIp.value == "" || srcIp.value in r.blocked
    ensures AfterBlock(r, srcIp, now) == r
    ensures BlockCalls(r, srcIp, addSucceeds) == []
  {
  }

  /**
   * A fresh address is blocked at `now` in both structures, every other entry is kept, and
   * exactly one "add rule" call follows; the entry stays whatever that call reports.
   */
  lemma FreshBlock(r: Registry, ip: string, now: int, addSucceeds: bool)
    requires ip != "" && ip !in r.blocked
    ensures AfterBlock(r, Some(ip), now) == Registry(r.blocked + {ip}, r.stamps[ip := now])
    ensures BlockCalls(r, Some(ip), addSucceeds) == [RuleCall(AddRule, ip, addSucceeds)]
  {
  }

  /** Blocking the same address twice is blocking it once. */
  lemma BlockIdempotent(r: Registry, srcIp: Option<string>, now: int, later: int)
    ensures AfterBlock(AfterBlock(r, srcIp, now), srcIp, later) == AfterBlock(r, srcIp, now)
    ensures BlockCalls(AfterBlock(r, srcIp, now), srcIp, true) == []
  {
  }

  /**
   * What a cleanup pass does to one blocked address, by its age: an entry no older than an
   * hour is kept with its time; an older one is removed from both structures exactly when
   * its "remove rule" call succeeds, and otherwise kept for the next pass.
   */
  lemma CleanupByAge(r: Registry, now: int, removeSucceeds: string -> bool, ip: string)
    requires Inv(r) && ip in r.blocked
    ensures var c := AfterCleanup(r, now, removeSucceeds);
      if now - r.stamps[ip] > BlockDuration && removeSucceeds(ip)
      then ip !in c.blocked && ip !in c.stamps
      else ip in c.blocked && ip in c.stamps && c.stamps[ip] == r.stamps[ip]
  {
  }

  /** A cleanup pass never blocks anything new and never changes a kept entry's time. */
  lemma CleanupOnlyRemoves(r: Registry, now: int, removeSucceeds: string -> bool)
    ensures var c := AfterCleanup(r, now, removeSucceeds);
      c.blocked <= r.blocked && c.stamps.Keys <= r.stamps.Keys &&
      forall ip :: ip in c.stamps ==> c.stamps[ip] == r.stamps[ip]
  {
  }

  /** A detection: the `src_ip` of the packet and the second it was handled at. */
  datatype Event = Event(srcIp: Option<string>, time: int)

  /** The registry after blocking for each event in turn, with no cleanup between them. */
  function BlockAll(r: Registry, events: seq<Event>): Registry
    decreases |events|
  {
    if events == [] then r else BlockAll(AfterBlock(r, events[0].srcIp, events[0].time), events[1..])
  }

  /** The "add rule" calls made while blocking for each event in turn. */
  function AddCalls(r: Registry, events: seq<Event>): seq<RuleCall>
    decreases |events|
  {
    if events == [] then []
    else BlockCalls(r, events[0].srcIp, true) + AddCalls(AfterBlock(r, events[0].srcIp, events[0].time), events[1..])
  }

  /**
   * Over any sequence of detections, the blocked set only grows, and it grows by exactly
   * the number of "add rule" calls: every address is added (and sent to iptables) once.
   */
  lemma {:induction false} BlockAllCounts(r: Registry, events: seq<Event>)
    ensures r.blocked <= BlockAll(r, events).blocked
    ensures |BlockAll(r, events).blocked| == |r.blocked| + |AddCalls(r, events)|
    decreases |events|
  {
    if events != [] {
      var next := AfterBlock(r, events[0].srcIp, events[0].time);
      BlockAllCounts(next, events[1..]);
      if Admits(r, events[0].srcIp) {
        assert |next.blocked| == |r.blocked| + 1;
      }
    }
  }

  /**
   * Over any sequence of detections the invariant holds throughout, and an address blocked
   * before keeps its original time: re-detection never extends a block.
   */
  lemma {:induction false} BlockAllKeepsTimes(r: Registry, events: seq<Event>)
    requires Inv(r)
    ensures Inv(BlockAll(r, events))
    ensures forall ip :: ip in r.stamps ==> ip in BlockAll(r, events).stamps && BlockAll(r, events).stamps[ip] == r.stamps[ip]
    decreases |events|
  {
    if events != [] {
      var next := AfterBlock(r, events[0].srcIp, events[0].time);
      BlockKeepsInv(r, events[0].srcIp, events[0].time);
      BlockAllKeepsTimes(next, events[1..]);
    }
  }

  /**
   * Between cleanups, the "add rule" calls name pairwise distinct addresses, none blocked
   * before and all blocked after: repeated detections of a blocked address never reach
   * iptables again.
   */
  lemma {:induction false} AddCallsDistinct(r: Registry, events: seq<Event>)
    ensures var calls := AddCalls(r, events);
      (forall i :: 0 <= i < |calls| ==>
        calls[i].action == AddRule && calls[i].ip !in r.blocked && calls[i].ip in BlockAll(r, events).blocked) &&
      (forall i, j :: 0 <= i < j < |calls| ==> calls[i].ip != calls[j].ip)
    decreases |events|
  {
    if events != [] {
      var next := AfterBlock(r, events[0].srcIp, events[0].time);
      AddCallsDistinct(next, events[1..]);
      BlockAllCounts(next, events[1..]);
    }
  }

  /** The addresses the events carry. */
  function EventIps(events: seq<Event>): set<string> {
    set e | e in events && e.srcIp.Some? :: e.srcIp.value
  }

  /**
   * Detections of N distinct, present, fresh addresses give exactly N new entries and
   * N "add rule" calls: no update is lost and none is duplicated.
   */
  lemma {:induction false} DistinctFreshBlocks(r: Registry, events: seq<Event>)
    requires forall i :: 0 <= i < |events| ==>
      events[i].srcIp.Some? && events[i].srcIp.value != "" && events[i].srcIp.value !in r.blocked
    requires forall i, j :: 0 <= i < j < |events| ==> events[i].srcIp != events[j].srcIp
    ensures |AddCalls(r, events)| == |events|
    ensures BlockAll(r, events).blocked == r.blocked + EventIps(events)
    decreases |events|
  {
    if events != [] {
      var ip := events[0].srcIp.value;
      var next := AfterBlock(r, events[0].srcIp, events[0].time);
      assert next.blocked == r.blocked + {ip};
      forall i | 0 <= i < |events[1..]|
        ensures events[1..][i].srcIp.value !in next.blocked
      {
        assert events[1..][i] == events[i + 1];
      }
      DistinctFreshBlocks(next, events[1..]);
      assert events == [events[0]] + events[1..];
      assert EventIps(events) == {ip} + EventIps(events[1..]) by {
        forall e | e in events ensures e == events[0] || e in events[1..] {
        }
      }
    }
  }
}

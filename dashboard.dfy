/**
 * The dashboard's statistics: three counters and a newest-first activity list. The Flask
 * routes, the HTML page and `time.strftime` are outside the model; a handler that changes
 * the statistics is a method, and the clock reading it formats is passed in as a string.
 */
module Dashboard {
  import opened Wrappers
  import opened PySeq

  /** `update_stats` keeps at most this many activity lines. */
  const ActivityLimit: nat := 20

  const StartupLine: string := "AI Firewall started successfully"
  const TestAlertText: string := "TEST ALERT: Simulated threat from 192.168.1.100"

  /** The line written for an activity at time `timestamp`. */
  function ActivityLine(timestamp: string, activity: string): string {
    timestamp + " - " + activity
  }

  /** Python truthiness of the optional `activity` argument: neither `None` nor empty. */
  predicate Truthy(activity: Option<string>) {
    activity.Some? && activity.value != ""
  }

  /** The activity list after `update_stats`: the new line in front, then the newest 20. */
  function UpdatedActivity(recent: seq<string>, activity: Option<string>, timestamp: string): seq<string> {
    var withNew := if Truthy(activity) then [ActivityLine(timestamp, activity.value)] + recent else recent;
    if |withNew| > ActivityLimit then Prefix(withNew, ActivityLimit) else withNew
  }

  /**
   * After an update the list holds at most 20 lines; a truthy activity is its first line,
   * followed by the newest of the old lines; a falsy one leaves the old lines, cut to 20.
   */
  lemma UpdatedActivityShape(recent: seq<string>, activity: Option<string>, timestamp: string)
    ensures var r := UpdatedActivity(recent, activity, timestamp);
      |r| <= ActivityLimit &&
      (Truthy(activity) ==> |r| == Min(|recent| + 1, ActivityLimit) &&
                            r[0] == ActivityLine(timestamp, activity.value) && r[1..] == recent[..|r| - 1]) &&
      (!Truthy(activity) ==> r == recent[..Min(|recent|, ActivityLimit)])
  {
  }

  class FirewallDashboard {
    const port: int
    var packetsProcessed: int
    var threatsDetected: int
    var ipsBlocked: int
    /** `recent_activity`, newest first. */
    var recentActivity: seq<string>

    constructor (port: int)
      ensures this.port == port
      ensures packetsProcessed == 0 && threatsDetected == 0 && ipsBlocked == 0
      ensures recentActivity == [StartupLine]
    {
      this.port := port;
      packetsProcessed, threatsDetected, ipsBlocked := 0, 0, 0;
      recentActivity := [StartupLine];
    }

    /** `update_stats`: the counters are overwritten, not added to. */
    method UpdateStats(packetsProcessed: int, threatsDetected: int, ipsBlocked: int,
                       activity: Option<string>, timestamp: string)
      modifies this
      ensures this.packetsProcessed == packetsProcessed
      ensures this.threatsDetected == threatsDetected
      ensures this.ipsBlocked == ipsBlocked
      ensures recentActivity == UpdatedActivity(old(recentActivity), activity, timestamp)
    {
      this.packetsProcessed := packetsProcessed;
      this.threatsDetected := threatsDetected;
      this.ipsBlocked := ipsBlocked;
      if Truthy(activity) {
        recentActivity := [ActivityLine(timestamp, activity.value)] + recentActivity;
      }
      if |recentActivity| > ActivityLimit {
        recentActivity := Prefix(recentActivity, ActivityLimit);
      }
    }

    /** The `/api/clear-logs` handler: one fresh line replaces the list; the counters stay. */
    method ClearLogs(timestamp: string)
      modifies this
      ensures recentActivity == ["Logs cleared at " + timestamp]
      ensures packetsProcessed == old(packetsProcessed) && threatsDetected == old(threatsDetected)
      ensures ipsBlocked == old(ipsBlocked)
    {
      recentActivity := ["Logs cleared at " + timestamp];
    }

    /** The `/api/test-alert` handler: one more threat and one line in front, with no cut to 20. */
    method TestAlert(timestamp: string)
      modifies this
      ensures threatsDetected == old(threatsDetected) + 1
      ensures recentActivity == [ActivityLine(timestamp, TestAlertText)] + old(recentActivity)
      ensures packetsProcessed == old(packetsProcessed) && ipsBlocked == old(ipsBlocked)
    {
      threatsDetected := threatsDetected + 1;
      recentActivity := [ActivityLine(timestamp, TestAlertText)] + recentActivity;
    }
  }
}

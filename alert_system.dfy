/**
 * The alert history: every alert is appended as an unacknowledged record, the history is
 * cut back to the newest 1000 records, recent records are read with a Python slice, and a
 * record is acknowledged by index. Formatting the alert text and sending e-mail are outside
 * the model: the message is kept as its fields, and `SendAlert` reports whether the
 * e-mail path would be taken.
 */
module Alerting {
  import opened Wrappers
  import opened PySeq

  /** The history never keeps more than this many records. */
  const HistoryLimit: nat := 1000

  /** The fields `_create_alert_message` writes into the alert text. */
  datatype AlertMessage = AlertMessage(
    timestamp: string, threatType: string, confidence: real, sourceIp: string, details: string)

  /** One history entry. */
  datatype AlertRecord = AlertRecord(timestamp: string, message: AlertMessage, acknowledged: bool)

  /** The `email_alerts` section of the configuration (the SMTP settings are not modelled). */
  datatype EmailSettings = EmailSettings(enabled: Option<bool>)

  /** The configuration dictionary; only its `email_alerts` key is consulted here. */
  datatype AlertConfig = AlertConfig(emailAlerts: Option<EmailSettings>)

  /** `config.get('email_alerts', {}).get('enabled', False)`. */
  predicate EmailEnabled(config: AlertConfig) {
    config.emailAlerts.GetOr(EmailSettings(None)).enabled.GetOr(false)
  }

  /** A missing section or a missing `enabled` key means no e-mail. */
  lemma EmailNeedsFlag(config: AlertConfig)
    ensures EmailEnabled(config) <==> config.emailAlerts.Some? && config.emailAlerts.value.enabled == Some(true)
  {
  }

  /** The trimming step of `_log_alert`: `history[-1000:]` once the history is too long. */
  function Trimmed(history: seq<AlertRecord>): seq<AlertRecord> {
    if |history| > HistoryLimit then Suffix(history, -(HistoryLimit as int)) else history
  }

  /** Trimming keeps exactly the newest `min(len, 1000)` records, in order. */
  lemma TrimmedIsNewest(history: seq<AlertRecord>)
    ensures Trimmed(history) == history[|history| - Min(|history|, HistoryLimit)..]
    ensures |Trimmed(history)| <= HistoryLimit
  {
  }

  /** Logging one alert keeps it as the newest record and never drops it. */
  lemma LoggedIsNewest(history: seq<AlertRecord>, rec: AlertRecord)
    ensures var h := Trimmed(history + [rec]);
      |h| > 0 && h[|h| - 1] == rec && |h| == Min(|history| + 1, HistoryLimit)
  {
  }

  class AlertSystem {
    const config: AlertConfig
    /** `alert_history`, oldest first. */
    var history: seq<AlertRecord>

    ghost predicate Valid()
      reads this
    {
      |history| <= HistoryLimit
    }

    constructor (config: AlertConfig)
      ensures Valid() && this.config == config && history == []
    {
      this.config := config;
      history := [];
    }

    /**
     * `send_alert`: logs the alert, then takes the e-mail path exactly when the
     * configuration enables it. `now` is the time `datetime.now()` reports.
     */
    method SendAlert(threatType: string, confidence: real, sourceIp: string, details: string, now: string)
      returns (emailed: bool)
      requires Valid()
      modifies this
      ensures Valid()
      ensures history == Trimmed(old(history) + [AlertRecord(now, AlertMessage(now, threatType, confidence, sourceIp, details), false)])
      ensures emailed == EmailEnabled(config)
    {
      var alertMessage := AlertMessage(now, threatType, confidence, sourceIp, details);
      LogAlert(alertMessage, now);
      emailed := EmailEnabled(config);
    }

    /** `_log_alert`: append an unacknowledged record, then keep the newest 1000. */
    method LogAlert(message: AlertMessage, now: string)
      requires Valid()
      modifies this
      ensures Valid()
      ensures history == Trimmed(old(history) + [AlertRecord(now, message, false)])
    {
      history := history + [AlertRecord(now, message, false)];
      if |history| > HistoryLimit {
        history := Suffix(history, -(HistoryLimit as int));
      }
    }

    /**
     * `get_recent_alerts(count)`, the slice `history[-count:]`: the newest `count` records
     * for a positive count, and, since `-0` is `0`, the whole history for zero.
     */
    function GetRecentAlerts(count: int): (r: seq<AlertRecord>)
      reads this
      ensures count >= 1 ==> r == history[|history| - Min(count, |history|)..]
      ensures count == 0 ==> r == history
      ensures count < 0 ==> r == history[Min(-count, |history|)..]
    {
      Suffix(history, -count)
    }

    /** `acknowledge_alert(i)`: sets the flag of record `i` in range; any other index is ignored. */
    method AcknowledgeAlert(alertIndex: int)
      requires Valid()
      modifies this
      ensures Valid()
      ensures history == if 0 <= alertIndex < |old(history)|
                         then old(history)[alertIndex := old(history)[alertIndex].(acknowledged := true)]
                         else old(history)
    {
      if 0 <= alertIndex < |history| {
        history := history[alertIndex := history[alertIndex].(acknowledged := true)];
      }
    }
  }
}

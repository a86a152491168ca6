/**
 * The cooldown bookkeeping of `AlertNotifier` (notifier.py): a map from alert key to the
 * time that alert last went out decides whether the same key may fire again.
 * Times are seconds on one clock; `datetime.now()` becomes a parameter. The WhatsApp
 * request is an input outcome: it decides what is reported, never the bookkeeping.
 */
module Notifier {
  import opened Wrappers

  /** `AlertNotifier(cooldown_minutes=60)`. */
  const DEFAULT_COOLDOWN_MINUTES: real := 60.0

  /** What `requests.get(url)` did: answered with a status code, or raised. */
  datatype HttpOutcome = Status(code: int) | Raised

  /** What one `send_alert` call ended up doing. */
  datatype Delivery =
    | Suppressed      // cooldown still active: nothing sent, nothing recorded
    | LoggedOnly      // credentials missing: the alert is only logged
    | Sent            // the gateway answered 200
    | Failed(status: int)
    | Errored         // the request raised

  /** `should_alert`: never recorded, or at least `cooldown` minutes since it was. */
  predicate Due(lastAlerts: map<string, real>, key: string, now: real, cooldownMinutes: real)
  {
    key !in lastAlerts || now - lastAlerts[key] >= cooldownMinutes * 60.0
  }

  /** The map after `send_alert(key)` checked at `now` and recorded at `recordedAt`. */
  function AfterSend(lastAlerts: map<string, real>, key: string, now: real, recordedAt: real,
                     cooldownMinutes: real): map<string, real>
  {
    if Due(lastAlerts, key, now, cooldownMinutes) then lastAlerts[key := recordedAt] else lastAlerts
  }

  /** The report of an alert that is not suppressed. */
  function Report(phone: Option<string>, apiKey: Option<string>, http: HttpOutcome): (d: Delivery)
    ensures d != Suppressed
    ensures d == LoggedOnly <==> !(Configured(phone) && Configured(apiKey))
  {
    if Configured(phone) && Configured(apiKey) then
      match http
      case Status(code) => if code == 200 then Sent else Failed(code)
      case Raised => Errored
    else LoggedOnly
  }

  class AlertNotifier {
    const cooldownMinutes: real
    const whatsappPhone: Option<string>
    const whatsappApiKey: Option<string>
    var lastAlerts: map<string, real>

    /** `AlertNotifier(cooldown_minutes, whatsapp_phone, whatsapp_api_key)`: nothing recorded yet. */
    constructor(cooldownMinutes: real, whatsappPhone: Option<string>, whatsappApiKey: Option<string>)
      ensures this.cooldownMinutes == cooldownMinutes
      ensures this.whatsappPhone == whatsappPhone && this.whatsappApiKey == whatsappApiKey
      ensures lastAlerts == map[]
    {
      this.cooldownMinutes := cooldownMinutes;
      this.whatsappPhone := whatsappPhone;
      this.whatsappApiKey := whatsappApiKey;
      lastAlerts := map[];
    }

    /** `should_alert(alert_key)`, read at time `now`; a function, so it changes nothing. */
    predicate ShouldAlert(alertKey: string, now: real)
      reads this
    {
      Due(lastAlerts, alertKey, now, cooldownMinutes)
    }

    /** `send_alert(title, message, alert_key)`: the cooldown test at `now`, the delivery
        attempt, and the new timestamp `recordedAt` (`datetime.now()` after the request). */
    method SendAlert(alertKey: string, now: real, recordedAt: real, http: HttpOutcome) returns (d: Delivery)
      modifies this
      ensures lastAlerts == AfterSend(old(lastAlerts), alertKey, now, recordedAt, cooldownMinutes)
      ensures d == Suppressed <==> !old(ShouldAlert(alertKey, now))
      ensures d != Suppressed ==> d == Report(whatsappPhone, whatsappApiKey, http)
    {
      if !ShouldAlert(alertKey, now) {
        return Suppressed;
      }
      if whatsappPhone.Some? && whatsappPhone.value != "" && whatsappApiKey.Some? && whatsappApiKey.value != "" {
        match http {
          case Status(code) =>
            if code == 200 {
              d := Sent;
            } else {
              d := Failed(code);
            }
          case Raised =>
            d := Errored;
        }
      } else {
        d := LoggedOnly;
      }
      lastAlerts := lastAlerts[alertKey := recordedAt];
    }
  }

  /** A key that was never recorded may always fire. */
  lemma NeverRecordedIsDue(lastAlerts: map<string, real>, key: string, now: real, cooldownMinutes: real)
    requires key !in lastAlerts
    ensures Due(lastAlerts, key, now, cooldownMinutes)
    ensures AfterSend(lastAlerts, key, now, now, cooldownMinutes) == lastAlerts[key := now]
  {
  }

  /** For a recorded key the cooldown ends exactly `cooldown` minutes after it, inclusively:
      due at the boundary, not due a moment before. */
  lemma CooldownBoundary(lastAlerts: map<string, real>, key: string, cooldownMinutes: real, now: real)
    requires key in lastAlerts
    ensures Due(lastAlerts, key, lastAlerts[key] + cooldownMinutes * 60.0, cooldownMinutes)
    ensures now < lastAlerts[key] + cooldownMinutes * 60.0 ==> !Due(lastAlerts, key, now, cooldownMinutes)
  {
  }

  /** A suppressed alert leaves the map as it was; one that goes out records exactly its key. */
  lemma AfterSendChanges(lastAlerts: map<string, real>, key: string, now: real, recordedAt: real,
                         cooldownMinutes: real)
    ensures !Due(lastAlerts, key, now, cooldownMinutes) ==>
      AfterSend(lastAlerts, key, now, recordedAt, cooldownMinutes) == lastAlerts
    ensures Due(lastAlerts, key, now, cooldownMinutes) ==>
      var after := AfterSend(lastAlerts, key, now, recordedAt, cooldownMinutes);
      key in after && after[key] == recordedAt
    ensures forall k :: k != key ==>
      (k in AfterSend(lastAlerts, key, now, recordedAt, cooldownMinutes) <==> k in lastAlerts)
    ensures forall k :: k != key && k in lastAlerts ==>
      AfterSend(lastAlerts, key, now, recordedAt, cooldownMinutes)[k] == lastAlerts[k]
  {
  }

  /** Once an alert has gone out at `recordedAt`, the same key is held back until the
      cooldown has passed since then, and is due again from that moment on. */
  lemma SuppressedUntilCooldown(lastAlerts: map<string, real>, key: string, now: real, recordedAt: real,
                                cooldownMinutes: real, later: real)
    requires Due(lastAlerts, key, now, cooldownMinutes)
    ensures Due(AfterSend(lastAlerts, key, now, recordedAt, cooldownMinutes), key, later, cooldownMinutes)
            <==> later >= recordedAt + cooldownMinutes * 60.0
  {
  }

  /** A second send of the same key at the same moment is suppressed, for any positive cooldown. */
  lemma NoDoubleSend(lastAlerts: map<string, real>, key: string, now: real, cooldownMinutes: real)
    requires cooldownMinutes > 0.0 && Due(lastAlerts, key, now, cooldownMinutes)
    ensures !Due(AfterSend(lastAlerts, key, now, now, cooldownMinutes), key, now, cooldownMinutes)
    ensures AfterSend(AfterSend(lastAlerts, key, now, now, cooldownMinutes), key, now, now, cooldownMinutes)
            == AfterSend(lastAlerts, key, now, now, cooldownMinutes)
  {
  }

  /** With credentials the report follows the HTTP outcome; a 200 is the only success. */
  lemma ReportFollowsHttp(phone: Option<string>, apiKey: Option<string>, http: HttpOutcome)
    requires Configured(phone) && Configured(apiKey)
    ensures Report(phone, apiKey, http) == Sent <==> http == Status(200)
    ensures Report(phone, apiKey, http) == Errored <==> http == Raised
  {
  }
}

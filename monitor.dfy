/**
 * The alert checks of `StockMonitor` (main.py): four condition predicates over a
 * ticker's price history, the dispatch of one configured alert (`check_alert`) and one
 * pass of the monitoring loop (`run`). Every history the source downloads is an input:
 * a `Feed` per checked alert, `Unreachable` when the provider raises.
 */
module Monitor {
  import opened Wrappers
  import opened Seqs
  import opened Text
  import opened Prices
  import opened StockService
  import opened Notifier

  /** The defaults `params.get(...)` falls back on. */
  const DEFAULT_MA_PERIOD: Period := 150
  const DEFAULT_THRESHOLD_PERCENT: real := 5.0

  const NEAR_MA: string := "near_ma"
  const ABOVE_CONDITION: string := "above"
  const BELOW_CONDITION: string := "below"
  const PERCENT_CHANGE: string := "percent_change"

  /** The message a check returns, with its numbers unformatted. */
  datatype Message =
    | Note(text: string)
    | NearMaMessage(price: real, diffPercent: real, period: nat, ma: real, fromAbove: bool)
    | AboveMessage(price: real, threshold: real)
    | BelowMessage(price: real, threshold: real)
    | ChangeMessage(changePercent: real, up: bool, prev: real, current: real)

  /** `(condition_met, message)`, or the exception a comparison with a missing `price` raises. */
  datatype CheckResult = Raises | Checked(met: bool, message: Option<Message>)

  /** `check_near_ma` over the `ma_period + 30` days of closes. */
  function CheckNearMa(recent: seq<Price>, n: Period, threshold: real): (r: CheckResult)
    ensures r.Checked?
    ensures |recent| < n ==> r == Checked(false, Some(Note("Insufficient data (need " + NatToString(n) + " days)")))
    ensures |recent| >= n ==> (r.met <==> Abs((LastClose(recent) - MovingAverage(recent, n)) / MovingAverage(recent, n) * 100.0) <= threshold)
    ensures |recent| >= n && !r.met ==> r.message == None
  {
    if |recent| < n then Checked(false, Some(Note("Insufficient data (need " + NatToString(n) + " days)")))
    else
      var price := LastClose(recent);
      var ma := MovingAverage(recent, n);
      var diff := Abs((price - ma) / ma * 100.0);
      if diff <= threshold then Checked(true, Some(NearMaMessage(price, diff, n, ma, price > ma)))
      else Checked(false, None)
  }

  /** `check_above` over the one-day history; a missing `price` makes `>` raise. */
  function CheckAbove(oneDay: seq<Price>, threshold: Option<real>): (r: CheckResult)
    ensures oneDay == [] ==> r == Checked(false, Some(Note("No data available")))
    ensures oneDay != [] && threshold.None? ==> r.Raises?
    ensures oneDay != [] && threshold.Some? ==> r.Checked? && (r.met <==> LastClose(oneDay) > threshold.value)
  {
    if oneDay == [] then Checked(false, Some(Note("No data available")))
    else if threshold.None? then Raises
    else
      var price := LastClose(oneDay);
      if price > threshold.value then Checked(true, Some(AboveMessage(price, threshold.value)))
      else Checked(false, None)
  }

  /** `check_below`, the mirror image with a strict `<`. */
  function CheckBelow(oneDay: seq<Price>, threshold: Option<real>): (r: CheckResult)
    ensures oneDay == [] ==> r == Checked(false, Some(Note("No data available")))
    ensures oneDay != [] && threshold.None? ==> r.Raises?
    ensures oneDay != [] && threshold.Some? ==> r.Checked? && (r.met <==> LastClose(oneDay) < threshold.value)
  {
    if oneDay == [] then Checked(false, Some(Note("No data available")))
    else if threshold.None? then Raises
    else
      var price := LastClose(oneDay);
      if price < threshold.value then Checked(true, Some(BelowMessage(price, threshold.value)))
      else Checked(false, None)
  }

  /** `check_percent_change` over the five-day history: the last close against the one before. */
  function CheckPercentChange(fiveDays: seq<Price>, threshold: real): (r: CheckResult)
    ensures r.Checked?
    ensures |fiveDays| < 2 ==> r == Checked(false, Some(Note("Insufficient data")))
    ensures r.met ==> (&& |fiveDays| >= 2 && r.message.Some? && r.message.value.ChangeMessage?
                       && (r.message.value.up <==> fiveDays[|fiveDays| - 1] > fiveDays[|fiveDays| - 2]))
  {
    if |fiveDays| < 2 then Checked(false, Some(Note("Insufficient data")))
    else
      var current: real := fiveDays[|fiveDays| - 1];
      var prev: real := fiveDays[|fiveDays| - 2];
      var change := Abs((current - prev) / prev * 100.0);
      if change > threshold then Checked(true, Some(ChangeMessage(change, current > prev, prev, current)))
      else Checked(false, None)
  }

  /** The `params` mapping of an alert; absent entries are `None`. */
  datatype Params = Params(maPeriod: Option<Period>, thresholdPercent: Option<real>, price: Option<real>)

  /** One entry of the configuration's `alerts` list. */
  datatype AlertConfig = AlertConfig(
    enabled: Option<bool>,
    name: Option<string>,
    symbol: string,
    condition: Option<string>,
    params: Params)

  /** The `stock_info` record collected for the web display. */
  datatype StockInfo = StockInfo(
    symbol: string,
    name: string,
    alertTriggered: bool,
    message: Option<Message>,
    currentPrice: real,
    maValue: real,
    distancePercent: real,
    direction: Option<string>)

  /** The histories one check of one alert downloads. `recent` is the `ma_period + 30`-day
      history, which the near-MA path reads twice and which is taken to be the same both times. */
  datatype Feed = Unreachable | Feed(oneDay: seq<Price>, fiveDays: seq<Price>, recent: seq<Price>)

  /** `alert_config.get('enabled', True)`. */
  predicate Enabled(cfg: AlertConfig)
  {
    cfg.enabled != Some(false)
  }

  function PeriodOf(p: Params): Period
  {
    if p.maPeriod.Some? then p.maPeriod.value else DEFAULT_MA_PERIOD
  }

  function ThresholdOf(p: Params): real
  {
    if p.thresholdPercent.Some? then p.thresholdPercent.value else DEFAULT_THRESHOLD_PERCENT
  }

  /** The record `check_alert` starts from: nothing triggered, zeros. */
  function DefaultInfo(cfg: AlertConfig): StockInfo
  {
    StockInfo(cfg.symbol, if cfg.name.Some? then cfg.name.value else "Unknown", false, None, 0.0, 0.0, 0.0, None)
  }

  predicate KnownCondition(c: Option<string>)
  {
    c == Some(NEAR_MA) || c == Some(ABOVE_CONDITION) || c == Some(BELOW_CONDITION) || c == Some(PERCENT_CHANGE)
  }

  /** `f"{symbol}_{condition}"`. */
  function AlertKey(symbol: string, condition: string): string
  {
    symbol + "_" + condition
  }

  /** What `check_alert` returns and which key, if any, it hands to `send_alert`. */
  datatype Evaluation = Evaluation(info: Option<StockInfo>, alertKey: Option<string>)

  /** The near-MA record update: the fields `stock_info.update(...)` writes. */
  function NearMaInfo(base: StockInfo, recent: seq<Price>, n: Period, r: CheckResult): (info: StockInfo)
    requires |recent| >= n && r.Checked?
    ensures info.symbol == base.symbol && info.name == base.name
    ensures info.currentPrice == LastClose(recent) && info.maValue == MovingAverage(recent, n)
    ensures info.distancePercent == Abs((LastClose(recent) - MovingAverage(recent, n)) / MovingAverage(recent, n) * 100.0)
    ensures info.direction == Some(if LastClose(recent) > MovingAverage(recent, n) then ABOVE else BELOW)
    ensures info.alertTriggered == r.met && info.message == r.message
  {
    var price := LastClose(recent);
    var ma := MovingAverage(recent, n);
    base.(currentPrice := price, maValue := ma, distancePercent := Abs((price - ma) / ma * 100.0),
          direction := Some(if price > ma then ABOVE else BELOW), alertTriggered := r.met, message := r.message)
  }

  /** The outcome of a check that ran: met conditions produce the alert key. */
  function Decide(info: StockInfo, cfg: AlertConfig, r: CheckResult): Evaluation
    requires cfg.condition.Some?
  {
    if r.Checked? && r.met then Evaluation(Some(info), Some(AlertKey(cfg.symbol, cfg.condition.value)))
    else Evaluation(Some(info), None)
  }

  /** `check_alert(alert_config)` against the histories `feed`. */
  function Evaluate(cfg: AlertConfig, feed: Feed): Evaluation
  {
    if !Enabled(cfg) then Evaluation(None, None)
    else
      var info := DefaultInfo(cfg);
      if feed.Unreachable? || feed.oneDay == [] || !KnownCondition(cfg.condition) then Evaluation(Some(info), None)
      else if cfg.condition == Some(NEAR_MA) then
        var n := PeriodOf(cfg.params);
        var r := CheckNearMa(feed.recent, n, ThresholdOf(cfg.params));
        Decide(if |feed.recent| >= n then NearMaInfo(info, feed.recent, n, r) else info, cfg, r)
      else if cfg.condition == Some(ABOVE_CONDITION) then Decide(info, cfg, CheckAbove(feed.oneDay, cfg.params.price))
      else if cfg.condition == Some(BELOW_CONDITION) then Decide(info, cfg, CheckBelow(feed.oneDay, cfg.params.price))
      else Decide(info, cfg, CheckPercentChange(feed.fiveDays, ThresholdOf(cfg.params)))
  }

  /** What one check of an alert sees: its histories, the clock at `should_alert` and at the
      record, and the WhatsApp outcome. */
  datatype Env = Env(feed: Feed, now: real, recordedAt: real, http: HttpOutcome)

  /** The cooldown map after the alert of one check, if any, was handed to `send_alert`. */
  function AfterCheck(lastAlerts: map<string, real>, cfg: AlertConfig, env: Env, cooldownMinutes: real): map<string, real>
  {
    var e := Evaluate(cfg, env.feed);
    if e.alertKey.Some? then AfterSend(lastAlerts, e.alertKey.value, env.now, env.recordedAt, cooldownMinutes)
    else lastAlerts
  }

  /** The cooldown map after checking every alert in order. */
  function AfterAlerts(lastAlerts: map<string, real>, alerts: seq<AlertConfig>, envs: seq<Env>,
                       cooldownMinutes: real): map<string, real>
    requires |envs| == |alerts|
    decreases |alerts|
  {
    if alerts == [] then lastAlerts
    else AfterAlerts(AfterCheck(lastAlerts, alerts[0], envs[0], cooldownMinutes), alerts[1..], envs[1..], cooldownMinutes)
  }

  /** The records one pass collects: `if stock_info: self.stocks_data.append(stock_info)`. */
  function Infos(alerts: seq<AlertConfig>, envs: seq<Env>): seq<StockInfo>
    requires |envs| == |alerts|
  {
    if alerts == [] then []
    else
      var e := Evaluate(alerts[0], envs[0].feed);
      (if e.info.Some? then [e.info.value] else []) + Infos(alerts[1..], envs[1..])
  }

  /** Peeling the alert at `i` off the records still to be collected. */
  lemma InfosStep(alerts: seq<AlertConfig>, envs: seq<Env>, i: nat)
    requires |envs| == |alerts| && i < |alerts|
    ensures var e := Evaluate(alerts[i], envs[i].feed);
      Infos(alerts[i..], envs[i..]) == (if e.info.Some? then [e.info.value] else []) + Infos(alerts[i + 1..], envs[i + 1..])
  {
    assert alerts[i..][1..] == alerts[i + 1..] && envs[i..][1..] == envs[i + 1..];
  }

  /** Peeling the alert at `i` off the checks still to be made. */
  lemma AfterAlertsStep(lastAlerts: map<string, real>, alerts: seq<AlertConfig>, envs: seq<Env>, i: nat,
                        cooldownMinutes: real)
    requires |envs| == |alerts| && i < |alerts|
    ensures AfterAlerts(lastAlerts, alerts[i..], envs[i..], cooldownMinutes)
         == AfterAlerts(AfterCheck(lastAlerts, alerts[i], envs[i], cooldownMinutes), alerts[i + 1..], envs[i + 1..], cooldownMinutes)
  {
    assert alerts[i..][1..] == alerts[i + 1..] && envs[i..][1..] == envs[i + 1..];
  }

  /** Part way through a pass: the records collected so far followed by those still to come
      are the whole pass's, and the checks still to make lead from the map `m` to the map the
      whole pass leads to from `m0`. */
  ghost predicate PassProgress(alerts: seq<AlertConfig>, envs: seq<Env>, i: nat, data: seq<StockInfo>,
                               m: map<string, real>, m0: map<string, real>, cooldownMinutes: real)
    requires |envs| == |alerts|
  {
    && i <= |alerts|
    && data + Infos(alerts[i..], envs[i..]) == Infos(alerts, envs)
    && AfterAlerts(m, alerts[i..], envs[i..], cooldownMinutes) == AfterAlerts(m0, alerts, envs, cooldownMinutes)
  }

  lemma PassStart(alerts: seq<AlertConfig>, envs: seq<Env>, m0: map<string, real>, cooldownMinutes: real)
    requires |envs| == |alerts|
    ensures PassProgress(alerts, envs, 0, [], m0, m0, cooldownMinutes)
  {
    assert alerts[0..] == alerts && envs[0..] == envs;
  }

  /** Checking the alert at `i` moves the pass on by one. */
  lemma PassStep(alerts: seq<AlertConfig>, envs: seq<Env>, i: nat, data: seq<StockInfo>,
                 m: map<string, real>, m0: map<string, real>, cooldownMinutes: real,
                 info: Option<StockInfo>, next: map<string, real>)
    requires |envs| == |alerts| && i < |alerts|
    requires PassProgress(alerts, envs, i, data, m, m0, cooldownMinutes)
    requires info == Evaluate(alerts[i], envs[i].feed).info
    requires next == AfterCheck(m, alerts[i], envs[i], cooldownMinutes)
    ensures PassProgress(alerts, envs, i + 1, data + (if info.Some? then [info.value] else []), next, m0, cooldownMinutes)
  {
    InfosStep(alerts, envs, i);
    AfterAlertsStep(m, alerts, envs, i, cooldownMinutes);
  }

  /** At the end of the pass the records and the map are the whole pass's. */
  lemma PassDone(alerts: seq<AlertConfig>, envs: seq<Env>, data: seq<StockInfo>,
                 m: map<string, real>, m0: map<string, real>, cooldownMinutes: real)
    requires |envs| == |alerts|
    requires PassProgress(alerts, envs, |alerts|, data, m, m0, cooldownMinutes)
    ensures data == Infos(alerts, envs) && m == AfterAlerts(m0, alerts, envs, cooldownMinutes)
  {
    assert alerts[|alerts|..] == [] && envs[|envs|..] == [];
  }

  class StockMonitor {
    const notifier: AlertNotifier
    const alerts: seq<AlertConfig>
    var stocksData: seq<StockInfo>

    /** `StockMonitor()` over an already loaded configuration. */
    constructor(alertCooldown: Option<real>, phone: Option<string>, apiKey: Option<string>, alerts: seq<AlertConfig>)
      ensures fresh(notifier) && notifier.lastAlerts == map[]
      ensures notifier.cooldownMinutes == (if alertCooldown.Some? then alertCooldown.value else DEFAULT_COOLDOWN_MINUTES)
      ensures notifier.whatsappPhone == phone && notifier.whatsappApiKey == apiKey
      ensures this.alerts == alerts && stocksData == []
    {
      notifier := new AlertNotifier(if alertCooldown.Some? then alertCooldown.value else DEFAULT_COOLDOWN_MINUTES, phone, apiKey);
      this.alerts := alerts;
      stocksData := [];
    }

    /** `check_alert(alert_config)`: the record, and the alert handed to the notifier. */
    method CheckAlert(cfg: AlertConfig, env: Env) returns (info: Option<StockInfo>)
      modifies notifier
      ensures info == Evaluate(cfg, env.feed).info
      ensures notifier.lastAlerts == AfterCheck(old(notifier.lastAlerts), cfg, env, notifier.cooldownMinutes)
    {
      var e := Evaluate(cfg, env.feed);
      if e.alertKey.Some? {
        var delivery := notifier.SendAlert(e.alertKey.value, env.now, env.recordedAt, env.http);
      }
      info := e.info;
    }

    /** One pass of `run`'s `while True` loop: reset the records, check every alert in
        order. With no alerts configured `run` returns before any pass. */
    method RunIteration(envs: seq<Env>)
      requires |envs| == |alerts|
      modifies this, notifier
      ensures alerts == [] ==> stocksData == old(stocksData) && notifier.lastAlerts == old(notifier.lastAlerts)
      ensures alerts != [] ==> stocksData == Infos(alerts, envs)
      ensures notifier.lastAlerts == AfterAlerts(old(notifier.lastAlerts), alerts, envs, notifier.cooldownMinutes)
    {
      if alerts == [] {
        return;
      }
      stocksData := [];
      PassStart(alerts, envs, notifier.lastAlerts, notifier.cooldownMinutes);
      var i := 0;
      while i < |alerts|
        invariant 0 <= i <= |alerts|
        invariant PassProgress(alerts, envs, i, stocksData, notifier.lastAlerts, old(notifier.lastAlerts), notifier.cooldownMinutes)
        decreases |alerts| - i
      {
        ghost var before := notifier.lastAlerts;
        var info := CheckAlert(alerts[i], envs[i]);
        PassStep(alerts, envs, i, stocksData, before, old(notifier.lastAlerts), notifier.cooldownMinutes, info, notifier.lastAlerts);
        stocksData := stocksData + (if info.Some? then [info.value] else []);
        i := i + 1;
      }
      PassDone(alerts, envs, stocksData, notifier.lastAlerts, old(notifier.lastAlerts), notifier.cooldownMinutes);
    }
  }

  /** `check_alert` returns `None` exactly for a disabled alert; `enabled` defaults to true. */
  lemma DisabledIffNone(cfg: AlertConfig, feed: Feed)
    ensures Evaluate(cfg, feed).info.None? <==> cfg.enabled == Some(false)
    ensures Evaluate(cfg, feed).info.None? ==> Evaluate(cfg, feed).alertKey.None?
  {
  }

  /** An unknown condition, an empty one-day history or an unreachable provider: the
      default record and no alert. */
  lemma QuietPaths(cfg: AlertConfig, feed: Feed)
    requires Enabled(cfg)
    requires !KnownCondition(cfg.condition) || feed.Unreachable? || feed.oneDay == []
    ensures Evaluate(cfg, feed) == Evaluation(Some(DefaultInfo(cfg)), None)
  {
  }

  /** An alert goes out only for an enabled alert with a known condition whose check was
      met, under the key `symbol_condition`, and the record always names the alert's symbol. */
  lemma AlertKeyShape(cfg: AlertConfig, feed: Feed)
    ensures Evaluate(cfg, feed).info.Some? ==> Evaluate(cfg, feed).info.value.symbol == cfg.symbol
    ensures Evaluate(cfg, feed).alertKey.Some? ==>
      && Enabled(cfg) && KnownCondition(cfg.condition) && feed.Feed? && feed.oneDay != []
      && Evaluate(cfg, feed).alertKey.value == cfg.symbol + "_" + cfg.condition.value
  {
    var e := Evaluate(cfg, feed);
    if e.info.Some? && Enabled(cfg) && feed.Feed? && feed.oneDay != [] && cfg.condition == Some(NEAR_MA) {
      var n := PeriodOf(cfg.params);
      if |feed.recent| >= n {
        assert e.info.value == NearMaInfo(DefaultInfo(cfg), feed.recent, n, CheckNearMa(feed.recent, n, ThresholdOf(cfg.params)));
      }
    }
  }

  /** Only near-MA alerts set `alert_triggered`, and a triggered record always comes with an alert. */
  lemma TriggeredOnlyNearMa(cfg: AlertConfig, feed: Feed)
    requires Evaluate(cfg, feed).info.Some? && Evaluate(cfg, feed).info.value.alertTriggered
    ensures cfg.condition == Some(NEAR_MA)
    ensures Evaluate(cfg, feed).alertKey == Some(AlertKey(cfg.symbol, NEAR_MA))
  {
  }

  /** With the default period and 5% threshold the near-MA check agrees with the backend's
      `near_ma` flag and direction for the same closes. */
  lemma NearMaAgreesWithService(symbol: string, recent: seq<Price>)
    requires |recent| >= DEFAULT_PERIOD
    ensures var sd := GetStockMaData(symbol, Some(recent), DEFAULT_PERIOD).value;
      && CheckNearMa(recent, DEFAULT_PERIOD, NEAR_THRESHOLD).met == sd.nearMa
      && (NearMaInfo(DefaultInfo(AlertConfig(None, None, symbol, Some(NEAR_MA), Params(None, None, None))),
                     recent, DEFAULT_PERIOD, CheckNearMa(recent, DEFAULT_PERIOD, NEAR_THRESHOLD)).direction
          == Some(sd.direction))
  {
    var sd := GetStockMaData(symbol, Some(recent), DEFAULT_PERIOD).value;
    assert sd.price == LastClose(recent) && sd.ma150 == MovingAverage(recent, DEFAULT_PERIOD);
  }

  /** The near-MA check in price terms: within `threshold`% of the average, bounds included. */
  lemma NearMaBand(recent: seq<Price>, n: Period, threshold: real)
    requires |recent| >= n
    ensures var p, ma := LastClose(recent), MovingAverage(recent, n);
      CheckNearMa(recent, n, threshold).met <==> -(threshold / 100.0 * ma) <= p - ma <= threshold / 100.0 * ma
  {
    var p, ma := LastClose(recent), MovingAverage(recent, n);
    RatioWithinBand(p - ma, ma, threshold / 100.0);
  }

  /** `check_above` and `check_below` against the same price never both fire. */
  lemma AboveBelowExclusive(oneDay: seq<Price>, threshold: Option<real>)
    ensures !(CheckAbove(oneDay, threshold).Checked? && CheckAbove(oneDay, threshold).met
              && CheckBelow(oneDay, threshold).Checked? && CheckBelow(oneDay, threshold).met)
  {
  }

  /** The percent-change check in price terms: the move from the previous close is strictly
      larger than `threshold`% of it, up or down. */
  lemma PercentChangeBand(fiveDays: seq<Price>, threshold: real)
    requires |fiveDays| >= 2
    ensures var cur, prev := fiveDays[|fiveDays| - 1], fiveDays[|fiveDays| - 2];
      CheckPercentChange(fiveDays, threshold).met <==>
        (cur - prev > threshold / 100.0 * prev || cur - prev < -(threshold / 100.0 * prev))
  {
    var cur, prev: real := fiveDays[|fiveDays| - 1], fiveDays[|fiveDays| - 2];
    RatioWithinBand(cur - prev, prev, threshold / 100.0);
  }

  /** One pass collects exactly one record per enabled alert. */
  lemma {:induction false} InfosCount(alerts: seq<AlertConfig>, envs: seq<Env>)
    requires |envs| == |alerts|
    ensures |Infos(alerts, envs)| == CountWhere(alerts, Enabled)
  {
    if alerts != [] {
      InfosCount(alerts[1..], envs[1..]);
      DisabledIffNone(alerts[0], envs[0].feed);
    }
  }

  /** ... and in configuration order: the records name the enabled alerts' symbols in turn. */
  lemma {:induction false} InfosInOrder(alerts: seq<AlertConfig>, envs: seq<Env>)
    requires |envs| == |alerts|
    ensures MapSeq(Infos(alerts, envs), (i: StockInfo) => i.symbol)
         == MapSeq(Filter(alerts, Enabled), (c: AlertConfig) => c.symbol)
  {
    if alerts != [] {
      InfosInOrder(alerts[1..], envs[1..]);
      DisabledIffNone(alerts[0], envs[0].feed);
      AlertKeyShape(alerts[0], envs[0].feed);
      var e := Evaluate(alerts[0], envs[0].feed);
      var rest := Infos(alerts[1..], envs[1..]);
      if e.info.Some? {
        MapSeqCons(e.info.value, rest, (i: StockInfo) => i.symbol);
        MapSeqCons(alerts[0], Filter(alerts[1..], Enabled), (c: AlertConfig) => c.symbol);
      }
    }
  }

  lemma MapSeqCons<S, T>(x: S, s: seq<S>, f: S -> T)
    ensures MapSeq([x] + s, f) == [f(x)] + MapSeq(s, f)
  {
    assert ([x] + s)[1..] == s;
  }

  /** A pass records a new time only under the key of an alert that went out; every other
      key keeps its time. */
  lemma {:induction false} AfterAlertsTouchesOnlySentKeys(lastAlerts: map<string, real>, alerts: seq<AlertConfig>,
                                                          envs: seq<Env>, cooldownMinutes: real, k: string)
    requires |envs| == |alerts|
    requires forall i :: 0 <= i < |alerts| ==> Evaluate(alerts[i], envs[i].feed).alertKey != Some(k)
    ensures (k in AfterAlerts(lastAlerts, alerts, envs, cooldownMinutes)) == (k in lastAlerts)
    ensures k in lastAlerts ==> AfterAlerts(lastAlerts, alerts, envs, cooldownMinutes)[k] == lastAlerts[k]
    decreases |alerts|
  {
    if alerts != [] {
      var next := AfterCheck(lastAlerts, alerts[0], envs[0], cooldownMinutes);
      var e := Evaluate(alerts[0], envs[0].feed);
      if e.alertKey.Some? {
        AfterSendChanges(lastAlerts, e.alertKey.value, envs[0].now, envs[0].recordedAt, cooldownMinutes);
      }
      assert forall i :: 0 <= i < |alerts[1..]| ==> alerts[1..][i] == alerts[i + 1] && envs[1..][i] == envs[i + 1];
      AfterAlertsTouchesOnlySentKeys(next, alerts[1..], envs[1..], cooldownMinutes, k);
    }
  }
}

/**
 * The configuration helper add_sp500.py: scrape the S&P 500 symbols, turn each into a
 * near-MA alert, and, once the user has typed "yes", replace the `alerts` entry of the
 * configuration file. The scrape, the file contents and the typed answer are inputs;
 * what the helper would write is its output.
 */
module AddSp500 {
  import opened Wrappers
  import opened Seqs
  import opened Text
  import opened Prices
  import opened Sp500Fetcher
  import opened Monitor

  const ALERTS_KEY: string := "alerts"
  const DEFAULT_THRESHOLD: real := 5.0

  /** This helper's `get_sp500_tickers()`: the cleaned symbols, or nothing when the scrape raised. */
  function ScrapeTickers(scrape: Option<seq<string>>): (r: seq<string>)
    ensures scrape.None? ==> r == []
    ensures scrape.Some? ==> |r| == |scrape.value| && forall i :: 0 <= i < |r| ==> r[i] == CleanSymbol(scrape.value[i])
  {
    if scrape.None? then [] else CleanSymbols(scrape.value)
  }

  /** `f"{ticker} near {ma_period}-day MA"`. */
  function AlertName(ticker: string, maPeriod: Period): string
  {
    ticker + " near " + NatToString(maPeriod) + "-day MA"
  }

  /** The alert `generate_config_entries` writes for one ticker. */
  function ConfigEntry(ticker: string, maPeriod: Period, threshold: real): AlertConfig
  {
    AlertConfig(Some(true), Some(AlertName(ticker, maPeriod)), ticker, Some(NEAR_MA),
                Params(Some(maPeriod), Some(threshold), None))
  }

  /** `generate_config_entries(tickers, ma_period, threshold)`. */
  method GenerateConfigEntries(tickers: seq<string>, maPeriod: Period, threshold: real)
    returns (alerts: seq<AlertConfig>)
    ensures |alerts| == |tickers|
    ensures forall i :: 0 <= i < |tickers| ==> alerts[i] == ConfigEntry(tickers[i], maPeriod, threshold)
  {
    alerts := [];
    for i := 0 to |tickers|
      invariant |alerts| == i
      invariant forall j :: 0 <= j < i ==> alerts[j] == ConfigEntry(tickers[j], maPeriod, threshold)
    {
      alerts := alerts + [ConfigEntry(tickers[i], maPeriod, threshold)];
    }
  }

  /** Every generated alert is enabled and watches its own ticker with the given period and
      threshold, so a monitoring pass over them keeps one record per ticker and fires only
      under `<ticker>_near_ma`. */
  lemma GeneratedEntriesMonitored(tickers: seq<string>, maPeriod: Period, threshold: real,
                                  alerts: seq<AlertConfig>, envs: seq<Env>)
    requires |alerts| == |tickers| == |envs|
    requires forall i :: 0 <= i < |tickers| ==> alerts[i] == ConfigEntry(tickers[i], maPeriod, threshold)
    ensures |Infos(alerts, envs)| == |tickers|
    ensures forall i :: 0 <= i < |alerts| ==>
      && PeriodOf(alerts[i].params) == maPeriod && ThresholdOf(alerts[i].params) == threshold
      && (Evaluate(alerts[i], envs[i].feed).alertKey.Some? ==>
            Evaluate(alerts[i], envs[i].feed).alertKey.value == tickers[i] + "_" + NEAR_MA)
  {
    FilterAll(alerts, Enabled);
    InfosCount(alerts, envs);
    forall i | 0 <= i < |alerts|
      ensures Evaluate(alerts[i], envs[i].feed).alertKey.Some? ==>
              Evaluate(alerts[i], envs[i].feed).alertKey.value == tickers[i] + "_" + NEAR_MA
    {
      AlertKeyShape(alerts[i], envs[i].feed);
    }
  }

  /** A configuration value: the alert list, or anything else the YAML file holds. */
  datatype ConfigValue = AlertList(alerts: seq<AlertConfig>) | Other(yaml: string)

  type Config = map<string, ConfigValue>

  /** What `yaml.safe_load` made of config.yaml: unreadable (the open or the parse raised),
      an empty document (`None`), or a mapping. */
  datatype ConfigFile = Unreadable | EmptyDocument | Parsed(config: Config)

  /** `config['alerts'] = alerts`. */
  function ReplaceAlerts(config: Config, alerts: seq<AlertConfig>): Config
  {
    config[ALERTS_KEY := AlertList(alerts)]
  }

  /** The replacement sets the alerts and leaves every other key exactly as it was. */
  lemma ReplaceOnlyAlerts(config: Config, alerts: seq<AlertConfig>)
    ensures ALERTS_KEY in ReplaceAlerts(config, alerts) && ReplaceAlerts(config, alerts)[ALERTS_KEY] == AlertList(alerts)
    ensures forall k :: k != ALERTS_KEY ==> (k in ReplaceAlerts(config, alerts) <==> k in config)
    ensures forall k :: k != ALERTS_KEY && k in config ==> ReplaceAlerts(config, alerts)[k] == config[k]
    ensures ReplaceAlerts(config, alerts).Keys == config.Keys + {ALERTS_KEY}
  {
  }

  /** What `update_config` writes: the backup copy (`None` inside for an empty document), and
      the new config.yaml. */
  datatype Written = Written(backup: Option<Option<Config>>, config: Option<Config>)

  /** `update_config(alerts, backup)`. An unreadable file writes nothing; an empty document
      is backed up and then fails on the item assignment. */
  method UpdateConfig(file: ConfigFile, alerts: seq<AlertConfig>, backup: bool) returns (w: Written)
    ensures file.Unreadable? ==> w == Written(None, None)
    ensures file.EmptyDocument? ==> w.config == None && (w.backup.Some? <==> backup) && (backup ==> w.backup == Some(None))
    ensures file.Parsed? ==>
      && w.config == Some(ReplaceAlerts(file.config, alerts))
      && (backup ==> w.backup == Some(Some(file.config)))
      && (!backup ==> w.backup == None)
  {
    if file.Unreadable? {
      return Written(None, None);
    }
    var saved: Option<Option<Config>> := None;
    if backup {
      saved := Some(if file.Parsed? then Some(file.config) else None);
    }
    if file.EmptyDocument? {
      return Written(saved, None);
    }
    var config := file.config;
    config := config[ALERTS_KEY := AlertList(alerts)];
    w := Written(saved, Some(config));
  }

  /** How a run of the helper ends. */
  datatype Outcome = NoTickers | Cancelled | Updated(alerts: seq<AlertConfig>, written: Written)

  /** The answer that lets the helper go ahead: `.strip().lower() == 'yes'`. */
  predicate Confirmed(answer: string)
  {
    ToLower(Strip(answer)) == "yes"
  }

  /** `main()`: scrape, ask, then generate the default entries and update the file. */
  method RunAddSp500(scrape: Option<seq<string>>, answer: string, file: ConfigFile) returns (o: Outcome)
    ensures o.Updated? <==> ScrapeTickers(scrape) != [] && Confirmed(answer)
    ensures ScrapeTickers(scrape) == [] ==> o == NoTickers
    ensures ScrapeTickers(scrape) != [] && !Confirmed(answer) ==> o == Cancelled
    ensures o.Updated? ==>
      && |o.alerts| == |ScrapeTickers(scrape)|
      && (forall i :: 0 <= i < |o.alerts| ==> o.alerts[i] == ConfigEntry(ScrapeTickers(scrape)[i], DEFAULT_MA_PERIOD, DEFAULT_THRESHOLD))
      && (file.Unreadable? ==> o.written == Written(None, None))
      && (file.EmptyDocument? ==> o.written == Written(Some(None), None))
      && (file.Parsed? ==> o.written == Written(Some(Some(file.config)), Some(ReplaceAlerts(file.config, o.alerts))))
  {
    var tickers := ScrapeTickers(scrape);
    if tickers == [] {
      return NoTickers;
    }
    if ToLower(Strip(answer)) == "yes" {
      var alerts := GenerateConfigEntries(tickers, DEFAULT_MA_PERIOD, DEFAULT_THRESHOLD);
      var written := UpdateConfig(file, alerts, true);
      o := Updated(alerts, written);
    } else {
      o := Cancelled;
    }
  }

  /** Surrounding blanks and capitals do not matter to the confirmation: any spelling of
      "yes" in any case, padded with any whitespace, lets the helper go ahead... */
  lemma ConfirmedDespiteCaseAndBlanks(pre: string, word: string, post: string)
    requires AllSpace(pre) && AllSpace(post)
    requires ToLower(word) == "yes"
    ensures Confirmed(pre + word + post)
  {
    assert LowerChar(word[0]) == 'y' && LowerChar(word[2]) == 's';
    StripPadded(pre, word, post);
  }

  /** ... but the word does: an abbreviation or a refusal cancels. */
  lemma OtherAnswersCancel()
    ensures !Confirmed("y") && !Confirmed("no") && !Confirmed("")
  {
    assert |Strip("y")| <= 1 && |Strip("no")| <= 2 && |Strip("")| == 0;
  }
}

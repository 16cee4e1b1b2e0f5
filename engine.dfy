/** The streaming decision engine of signal_engine.py: configuration, the
    per-poll classification (`_decide`), one poll's full update (`update`) as a
    function of the previous state, and the stateful `GreenLightEngine`. */
module Engine {
  import opened Common
  import opened Book
  import opened Zones

  /** `EngineConfig`, an immutable record. `zones` None and `zones` empty
      behave alike: both read as "no zones configured". */
  datatype EngineConfig = EngineConfig(
    depthBandPct: real,
    minDepthDeltaUsd: real,
    minTakerDeltaUsd: real,
    minOiMovePct: real,
    maxAbsFundingPct: real,
    depthPersistPolls: int,
    zones: Option<seq<Zone>>,
    zoneProximityPct: real)
  {
    /** `cfg.zones or []` */
    function ConfiguredZones(): seq<Zone> {
      zones.GetOr([])
    }
  }

  /** The dataclass defaults. */
  const DefaultConfig := EngineConfig(0.01, 3000000.0, 2000000.0, 0.03, 0.03, 2, None, 0.0015)

  /** Under the defaults no zones are configured, so no poll raises; the
      history holds the last two depth flags; and a fresh engine's first poll,
      with no baseline to measure against, is never GREEN. */
  lemma DefaultsFirstPoll(p: Poll)
    ensures Capacity(DefaultConfig) == 2
    ensures Step(DefaultConfig, Fresh, p).out.Returned?
    ensures Step(DefaultConfig, Fresh, p).out.value.status != Green
  {
    assert DefaultConfig.ConfiguredZones() == [];
    FirstPollNeverGreen(DefaultConfig, p);
  }

  datatype Status = Green | Red | Wait {
    /** The status string the engine hands to its caller. */
    function Name(): string {
      match this
      case Green => "GREEN"
      case Red => "RED"
      case Wait => "WAIT"
    }
  }

  /** Which side of the taker flow is aggressive. */
  datatype Side = Buyers | Sellers

  /** The explanatory comments, by kind, carrying the values they report. */
  datatype Comment =
    | FundingExtreme(fundingPct: real)
    | NotNearZone
    | NearZone(hit: ZoneHit)
    | OrderbookLow(depthDeltaUsd: real)
    | OrderbookActive(depthDeltaUsd: real)
    | OrderbookSpike(depthDeltaUsd: real)
    | FlowWeak(takerDeltaUsd: real)
    | FlowConfirms(side: Side, takerDeltaUsd: real)
    | OiFlat(oiChgPct: real)
    | OiMoved(oiChgPct: real)
    | GreenSummary(hint: Side)
  {
    predicate IsZoneNote() { NotNearZone? || NearZone? }
    predicate IsDepthNote() { OrderbookLow? || OrderbookActive? || OrderbookSpike? }
    predicate IsTakerNote() { FlowWeak? || FlowConfirms? }
    predicate IsOiNote() { OiFlat? || OiMoved? }
  }

  /** The trade-flow summary; a missing key reads as 0.0. */
  datatype Trades = Trades(takerBuyUsd: Option<real>, takerSellUsd: Option<real>)

  /** The arguments of one call to `update`. */
  datatype Poll = Poll(
    price: real,
    bids: seq<Level>,
    asks: seq<Level>,
    oi: real,
    fundingFrac: real,
    trades: Option<Trades>)

  /** The metrics dictionary `update` returns. */
  datatype Metrics = Metrics(
    price: real,
    oi: real,
    oiChgPct: real,
    fundingPct: real,
    bidUsd: real,
    askUsd: real,
    depthDeltaUsd: real,
    takerDeltaUsd: real,
    zone: Option<ZoneHit>)

  /** The `(status, comments, metrics)` triple `update` returns. */
  datatype Report = Report(status: Status, comments: seq<Comment>, metrics: Metrics)

  /** The engine's mutable state: the previous poll's values ("unset" is None)
      and the bounded history of depth flags. */
  datatype EngineState = EngineState(
    prevOi: Option<real>,
    prevBidUsd: Option<real>,
    prevAskUsd: Option<real>,
    depthOkHist: seq<bool>)

  /** The state of a newly constructed engine. */
  const Fresh := EngineState(None, None, None, [])

  /** What `_decide` returns, together with the depth history it leaves. */
  datatype Verdict = Verdict(status: Status, comments: seq<Comment>, hist: seq<bool>)

  /** One `update`: what it returns (or raises) and the state it leaves. */
  datatype StepResult = StepResult(out: Outcome<Report>, next: EngineState)

  /** `pct_change`: the percentage change from `previous` to `current`, with 0
      when there is no (zero) baseline. */
  function PctChange(current: real, previous: real): (r: real)
    ensures previous == 0.0 ==> r == 0.0
    ensures previous != 0.0 ==> current == previous + previous * r / 100.0
  {
    if previous == 0.0 then 0.0 else (current - previous) / previous * 100.0
  }

  /** The deque's `maxlen`: `max(1, depth_persist_polls)`. */
  function Capacity(cfg: EngineConfig): (n: nat)
    ensures n >= 1 && n >= cfg.depthPersistPolls
  {
    if cfg.depthPersistPolls > 1 then cfg.depthPersistPolls else 1
  }

  /** The last `n` elements of `s` (all of `s` when it is shorter): what a
      deque with `maxlen == n` holds after every element of `s` was appended. */
  function Window<T>(s: seq<T>, n: nat): (w: seq<T>)
    ensures |w| == if |s| <= n then |s| else n
  {
    if |s| <= n then s else s[|s| - n..]
  }

  /** The window is a suffix of what was appended: the newest elements are
      kept and the oldest are the ones dropped. */
  lemma WindowKeepsNewest<T>(s: seq<T>, n: nat)
    ensures Window(s, n) == s[|s| - |Window(s, n)|..]
    ensures |s| > n ==> s == s[..|s| - n] + Window(s, n)
  {
  }

  /** Appending to a full window evicts its oldest element, otherwise it grows. */
  lemma WindowAppend<T>(h: seq<T>, n: nat, x: T)
    requires 1 <= n && |h| <= n
    ensures Window(h + [x], n) == if |h| == n then h[1..] + [x] else h + [x]
  {
    if |h| == n {
      assert (h + [x])[|h + [x]| - n..] == h[1..] + [x];
    }
  }

  /** Windowing commutes with appending: keeping only the last `n` flags loses
      nothing that a later window can see. */
  lemma WindowSlides<T>(log: seq<T>, n: nat, x: T)
    requires 1 <= n
    ensures Window(Window(log, n) + [x], n) == Window(log + [x], n)
  {
    var w := Window(log, n);
    WindowAppend(w, n, x);
    if |log| < n {
      assert w == log;
    } else {
      var big := log + [x];
      assert Window(big, n) == big[|big| - n..];
      assert w[1..] + [x] == big[|big| - n..];
    }
  }

  /** Once the window is full, every flag in it is true exactly when the last
      `n` flags of the log are all true. */
  lemma {:induction false} ConfirmedIffStreak(log: seq<bool>, n: nat)
    requires 1 <= n <= |log|
    ensures false !in Window(log, n) <==> forall i :: |log| - n <= i < |log| ==> log[i]
  {
    var w := Window(log, n);
    assert forall i :: |log| - n <= i < |log| ==> log[i] == w[i - (|log| - n)];
    if false in w {
      var j :| 0 <= j < |w| && w[j] == false;
      assert log[j + (|log| - n)] == false;
    }
  }

  /** The three activity tests of `_decide`. */
  predicate DepthOkNow(cfg: EngineConfig, depthDeltaUsd: real) {
    Abs(depthDeltaUsd) >= cfg.minDepthDeltaUsd
  }

  predicate OiOk(cfg: EngineConfig, oiChgPct: real) {
    Abs(oiChgPct) >= cfg.minOiMovePct
  }

  predicate TakerOk(cfg: EngineConfig, takerDeltaUsd: real) {
    Abs(takerDeltaUsd) >= cfg.minTakerDeltaUsd
  }

  /** Buyers when the taker delta is positive, sellers otherwise (zero included). */
  function Aggressor(takerDeltaUsd: real): Side {
    if takerDeltaUsd > 0.0 then Buyers else Sellers
  }

  /** The zone note, present only when zones are configured. */
  function ZoneNotes(cfg: EngineConfig, zoneHit: Option<ZoneHit>): seq<Comment> {
    if |cfg.ConfiguredZones()| == 0 then []
    else if zoneHit.None? then [NotNearZone]
    else [NearZone(zoneHit.value)]
  }

  /** `depth_ok`: every flag of the window when persistence is asked for,
      otherwise the current flag alone. */
  function DepthOk(cfg: EngineConfig, window: seq<bool>, depthOkNow: bool): bool {
    if cfg.depthPersistPolls > 1 then false !in window else depthOkNow
  }

  function DepthNote(depthOkNow: bool, depthOk: bool, depthDeltaUsd: real): Comment {
    if !depthOkNow then OrderbookLow(depthDeltaUsd)
    else if depthOk then OrderbookActive(depthDeltaUsd)
    else OrderbookSpike(depthDeltaUsd)
  }

  function TakerNote(cfg: EngineConfig, takerDeltaUsd: real): Comment {
    if !TakerOk(cfg, takerDeltaUsd) then FlowWeak(takerDeltaUsd)
    else FlowConfirms(Aggressor(takerDeltaUsd), takerDeltaUsd)
  }

  function OiNote(cfg: EngineConfig, oiChgPct: real): Comment {
    if !OiOk(cfg, oiChgPct) then OiFlat(oiChgPct) else OiMoved(oiChgPct)
  }

  /** `_decide` as a function of the depth history it starts from. RED comes
      first and touches nothing; otherwise the current depth flag enters the
      bounded history and GREEN needs all three activity tests. */
  function Decision(cfg: EngineConfig, hist: seq<bool>, zoneHit: Option<ZoneHit>,
                    depthDeltaUsd: real, oiChgPct: real, fundingPct: real, takerDeltaUsd: real): Verdict
  {
    if Abs(fundingPct) > cfg.maxAbsFundingPct then
      Verdict(Red, [FundingExtreme(fundingPct)], hist)
    else
      var depthOkNow := DepthOkNow(cfg, depthDeltaUsd);
      var window := Window(hist + [depthOkNow], Capacity(cfg));
      var depthOk := DepthOk(cfg, window, depthOkNow);
      var notes := ZoneNotes(cfg, zoneHit) + [DepthNote(depthOkNow, depthOk, depthDeltaUsd)]
                   + [TakerNote(cfg, takerDeltaUsd)] + [OiNote(cfg, oiChgPct)];
      if depthOk && TakerOk(cfg, takerDeltaUsd) && OiOk(cfg, oiChgPct) then
        Verdict(Green, notes + [GreenSummary(Aggressor(takerDeltaUsd))], window)
      else
        Verdict(Wait, notes, window)
  }

  /** The precedence of `_decide`: RED exactly when funding is extreme, with a
      single comment and the history untouched; otherwise the current depth
      flag enters the bounded history, and GREEN holds exactly when every flag
      in that history is true (for any persistence setting) and OI and taker
      flow are active. GREEN therefore needs the current depth flag. */
  lemma DecisionRules(cfg: EngineConfig, hist: seq<bool>, zoneHit: Option<ZoneHit>,
                      depthDeltaUsd: real, oiChgPct: real, fundingPct: real, takerDeltaUsd: real)
    ensures
      var v := Decision(cfg, hist, zoneHit, depthDeltaUsd, oiChgPct, fundingPct, takerDeltaUsd);
      && (v.status == Red <==> Abs(fundingPct) > cfg.maxAbsFundingPct)
      && (v.status == Red ==> v.comments == [FundingExtreme(fundingPct)] && v.hist == hist)
      && (v.status != Red ==> v.hist == Window(hist + [DepthOkNow(cfg, depthDeltaUsd)], Capacity(cfg)))
      && (v.status == Green <==>
            v.status != Red && false !in v.hist && OiOk(cfg, oiChgPct) && TakerOk(cfg, takerDeltaUsd))
      && (v.status == Green ==> DepthOkNow(cfg, depthDeltaUsd))
  {
    var now := DepthOkNow(cfg, depthDeltaUsd);
    var window := Window(hist + [now], Capacity(cfg));
    assert window[|window| - 1] == now;
    if cfg.depthPersistPolls <= 1 {
      assert window == [now];
    }
  }

  /** Off the RED path the comments are: a zone note when zones are
      configured, then depth, taker flow and open interest, then the GREEN
      summary only on GREEN. The depth note tells low, persisted and
      unpersisted spikes apart. */
  lemma CommentLayout(cfg: EngineConfig, hist: seq<bool>, zoneHit: Option<ZoneHit>,
                      depthDeltaUsd: real, oiChgPct: real, fundingPct: real, takerDeltaUsd: real)
    requires Abs(fundingPct) <= cfg.maxAbsFundingPct
    ensures
      var v := Decision(cfg, hist, zoneHit, depthDeltaUsd, oiChgPct, fundingPct, takerDeltaUsd);
      var z := if |cfg.ConfiguredZones()| > 0 then 1 else 0;
      && |v.comments| == 3 + z + (if v.status == Green then 1 else 0)
      && (z == 1 ==> v.comments[0].IsZoneNote() && (v.comments[0].NearZone? <==> zoneHit.Some?))
      && (z == 1 && zoneHit.Some? ==> v.comments[0] == NearZone(zoneHit.value))
      && v.comments[z].IsDepthNote() && v.comments[z + 1].IsTakerNote() && v.comments[z + 2].IsOiNote()
      && (v.status == Green ==> v.comments[z + 3] == GreenSummary(Aggressor(takerDeltaUsd)))
      && (v.comments[z].OrderbookLow? <==> !DepthOkNow(cfg, depthDeltaUsd))
      && (v.comments[z].OrderbookSpike? <==> DepthOkNow(cfg, depthDeltaUsd) && false in v.hist)
      && (v.comments[z + 1].FlowWeak? <==> !TakerOk(cfg, takerDeltaUsd))
      && (v.comments[z + 1].FlowConfirms? ==> v.comments[z + 1].side == Aggressor(takerDeltaUsd))
      && (v.comments[z + 2].OiFlat? <==> !OiOk(cfg, oiChgPct))
  {
    var v := Decision(cfg, hist, zoneHit, depthDeltaUsd, oiChgPct, fundingPct, takerDeltaUsd);
    var window := Window(hist + [DepthOkNow(cfg, depthDeltaUsd)], Capacity(cfg));
    assert v.hist == window;
    if cfg.depthPersistPolls <= 1 {
      assert window == [DepthOkNow(cfg, depthDeltaUsd)];
    }
  }

  /** `taker_buy_usd - taker_sell_usd`, each defaulting to 0.0, and 0.0
      altogether when there is no trade summary. */
  function TakerDeltaUsd(trades: Option<Trades>): (r: real)
    ensures trades.None? ==> r == 0.0
    ensures trades.Some? ==> r + trades.value.takerSellUsd.GetOr(0.0) == trades.value.takerBuyUsd.GetOr(0.0)
  {
    match trades
    case None => 0.0
    case Some(t) => t.takerBuyUsd.GetOr(0.0) - t.takerSellUsd.GetOr(0.0)
  }

  /** Change in bid-minus-ask band liquidity since the previous poll; 0 before
      there is a baseline. */
  function DepthDelta(s: EngineState, bidUsd: real, askUsd: real): real {
    if s.prevBidUsd.Some? && s.prevAskUsd.Some? then
      (bidUsd - s.prevBidUsd.value) - (askUsd - s.prevAskUsd.value)
    else 0.0
  }

  /** Open-interest change in percent since the previous poll; 0 before there
      is a baseline. */
  function OiChange(s: EngineState, oi: real): real {
    if s.prevOi.Some? then PctChange(oi, s.prevOi.value) else 0.0
  }

  /** `update` as a function of the previous state. The baselines always move
      to this poll's values, even when the poll ends RED or raises; the depth
      history moves only when `_decide` gets past its RED test. */
  function Step(cfg: EngineConfig, s: EngineState, p: Poll): StepResult
  {
    var fundingPct := p.fundingFrac * 100.0;
    var bidUsd := SideUsd(p.bids, Bids, Bound(Bids, p.price, cfg.depthBandPct));
    var askUsd := SideUsd(p.asks, Asks, Bound(Asks, p.price, cfg.depthBandPct));
    var depthDelta := DepthDelta(s, bidUsd, askUsd);
    var oiChgPct := OiChange(s, p.oi);
    var baselined := EngineState(Some(p.oi), Some(bidUsd), Some(askUsd), s.depthOkHist);
    match ZoneMatch(p.price, cfg.ConfiguredZones(), cfg.zoneProximityPct)
    case ZeroDivisionError => StepResult(ZeroDivisionError, baselined)
    case Returned(zoneHit) =>
      var takerDelta := TakerDeltaUsd(p.trades);
      var v := Decision(cfg, s.depthOkHist, zoneHit, depthDelta, oiChgPct, fundingPct, takerDelta);
      var metrics := Metrics(p.price, p.oi, oiChgPct, fundingPct, bidUsd, askUsd, depthDelta, takerDelta, zoneHit);
      StepResult(Returned(Report(v.status, v.comments, metrics)), baselined.(depthOkHist := v.hist))
  }

  /** Every `update` moves the baselines to this poll's values, whether it
      ends RED, WAIT, GREEN or raises; it raises exactly when a configured zone
      has level 0. */
  lemma BaselinesAlwaysAdvance(cfg: EngineConfig, s: EngineState, p: Poll)
    ensures
      var r := Step(cfg, s, p);
      && r.next.prevBidUsd == Some(SideUsd(p.bids, Bids, Bound(Bids, p.price, cfg.depthBandPct)))
      && r.next.prevAskUsd == Some(SideUsd(p.asks, Asks, Bound(Asks, p.price, cfg.depthBandPct)))
      && r.next.prevOi == Some(p.oi)
      && (r.out.ZeroDivisionError? <==> !NonZeroLevels(cfg.ConfiguredZones()))
  {
  }

  /** The depth history moves only on polls that get past the RED test: a
      RED poll or a raising poll leaves it as it was; any other poll appends
      its depth flag, evicting the oldest once `Capacity(cfg)` are held. */
  lemma HistoryOnlyAdvancesPastRed(cfg: EngineConfig, s: EngineState, p: Poll)
    ensures
      var r := Step(cfg, s, p);
      && (r.out.Returned? ==>
            (r.out.value.status == Red <==> Abs(p.fundingFrac * 100.0) > cfg.maxAbsFundingPct))
      && (r.out.ZeroDivisionError? || r.out.value.status == Red ==> r.next.depthOkHist == s.depthOkHist)
      && (r.out.Returned? && r.out.value.status != Red ==>
            r.next.depthOkHist ==
            Window(s.depthOkHist + [DepthOkNow(cfg, r.out.value.metrics.depthDeltaUsd)], Capacity(cfg)))
      && (|s.depthOkHist| <= Capacity(cfg) ==> |r.next.depthOkHist| <= Capacity(cfg))
  {
    var r := Step(cfg, s, p);
    if r.out.Returned? {
      var m := r.out.value.metrics;
      DecisionRules(cfg, s.depthOkHist, m.zone, m.depthDeltaUsd, m.oiChgPct, m.fundingPct, m.takerDeltaUsd);
    }
  }

  /** The metrics a returning `update` reports, value by value. */
  lemma MetricsOfStep(cfg: EngineConfig, s: EngineState, p: Poll)
    requires NonZeroLevels(cfg.ConfiguredZones())
    ensures Step(cfg, s, p).out.Returned?
    ensures
      var bidUsd := SideUsd(p.bids, Bids, Bound(Bids, p.price, cfg.depthBandPct));
      var askUsd := SideUsd(p.asks, Asks, Bound(Asks, p.price, cfg.depthBandPct));
      Step(cfg, s, p).out.value.metrics ==
        Metrics(p.price, p.oi, OiChange(s, p.oi), p.fundingFrac * 100.0, bidUsd, askUsd,
                DepthDelta(s, bidUsd, askUsd), TakerDeltaUsd(p.trades),
                ZoneMatch(p.price, cfg.ConfiguredZones(), cfg.zoneProximityPct).value)
  {
    BaselinesAlwaysAdvance(cfg, s, p);
  }

  /** Before there is a baseline, the depth delta and the OI change are 0. */
  lemma NoBaselineNoDeltas(cfg: EngineConfig, s: EngineState, p: Poll)
    requires NonZeroLevels(cfg.ConfiguredZones())
    ensures Step(cfg, s, p).out.Returned?
    ensures s.prevBidUsd.None? ==> Step(cfg, s, p).out.value.metrics.depthDeltaUsd == 0.0
    ensures s.prevOi.None? ==> Step(cfg, s, p).out.value.metrics.oiChgPct == 0.0
  {
    BaselinesAlwaysAdvance(cfg, s, p);
  }

  /** With a baseline, the depth delta is positive exactly when bid liquidity
      grew more than ask liquidity, and the OI change is `PctChange` from the
      previous open interest (0 when that was 0). */
  lemma DeltasAgainstBaseline(cfg: EngineConfig, s: EngineState, p: Poll)
    requires s.prevBidUsd.Some? && s.prevAskUsd.Some? && s.prevOi.Some?
    requires NonZeroLevels(cfg.ConfiguredZones())
    ensures Step(cfg, s, p).out.Returned?
    ensures
      var m := Step(cfg, s, p).out.value.metrics;
      && m.depthDeltaUsd == (m.bidUsd - s.prevBidUsd.value) - (m.askUsd - s.prevAskUsd.value)
      && (m.depthDeltaUsd > 0.0 <==> m.bidUsd - s.prevBidUsd.value > m.askUsd - s.prevAskUsd.value)
      && m.oiChgPct == PctChange(p.oi, s.prevOi.value)
  {
    BaselinesAlwaysAdvance(cfg, s, p);
    var r := Step(cfg, s, p);
    var bidUsd := SideUsd(p.bids, Bids, Bound(Bids, p.price, cfg.depthBandPct));
    var askUsd := SideUsd(p.asks, Asks, Bound(Asks, p.price, cfg.depthBandPct));
    assert r.out.value.metrics.bidUsd == bidUsd && r.out.value.metrics.askUsd == askUsd;
    assert r.out.value.metrics.depthDeltaUsd == DepthDelta(s, bidUsd, askUsd);
    assert r.out.value.metrics.oiChgPct == PctChange(p.oi, s.prevOi.value);
  }

  /** With a positive depth threshold or a positive OI threshold, the first
      poll of a fresh engine is never GREEN: its depth delta and its OI change
      are both 0, so its depth flag or its OI flag is false. */
  lemma FirstPollNeverGreen(cfg: EngineConfig, p: Poll)
    requires cfg.minDepthDeltaUsd > 0.0 || cfg.minOiMovePct > 0.0
    requires NonZeroLevels(cfg.ConfiguredZones())
    ensures Step(cfg, Fresh, p).out.Returned?
    ensures Step(cfg, Fresh, p).out.value.status != Green
  {
    BaselinesAlwaysAdvance(cfg, Fresh, p);
    NoBaselineNoDeltas(cfg, Fresh, p);
    var m := Step(cfg, Fresh, p).out.value.metrics;
    DecisionRules(cfg, [], m.zone, m.depthDeltaUsd, m.oiChgPct, m.fundingPct, m.takerDeltaUsd);
  }

  /** RED polls do not enter the depth history, so the window can hold fewer
      than `depth_persist_polls` flags when it is read. With an empty history
      (a fresh engine whose polls so far were all RED) one active depth flag
      is enough for GREEN, whatever the persistence setting. */
  lemma EmptyHistoryConfirmsAtOnce(cfg: EngineConfig, s: EngineState, p: Poll)
    requires s.depthOkHist == []
    requires NonZeroLevels(cfg.ConfiguredZones())
    requires Abs(p.fundingFrac * 100.0) <= cfg.maxAbsFundingPct
    ensures Step(cfg, s, p).out.Returned?
    ensures
      var r := Step(cfg, s, p).out.value;
      r.status == Green <==>
        DepthOkNow(cfg, r.metrics.depthDeltaUsd) && OiOk(cfg, r.metrics.oiChgPct) && TakerOk(cfg, r.metrics.takerDeltaUsd)
  {
    BaselinesAlwaysAdvance(cfg, s, p);
    var r := Step(cfg, s, p).out.value;
    var m := r.metrics;
    DecisionRules(cfg, [], m.zone, m.depthDeltaUsd, m.oiChgPct, m.fundingPct, m.takerDeltaUsd);
    assert Window([] + [DepthOkNow(cfg, m.depthDeltaUsd)], Capacity(cfg)) == [DepthOkNow(cfg, m.depthDeltaUsd)];
  }

  /** A worked case of the above: with persistence 3, a RED first poll sets the
      baselines without touching the history, and the next poll, a single
      depth spike with OI and taker flow active, is already GREEN. */
  lemma SpikeAfterRedIsConfirmedAtOnce()
    ensures
      var first := Step(SpikeCfg, Fresh, SpikeFirstPoll);
      var second := Step(SpikeCfg, first.next, SpikeSecondPoll);
      && first.out.Returned? && first.out.value.status == Red
      && second.out.Returned? && second.out.value.status == Green
  {
    SpikeFirstPollIsRed();
    SpikeSecondPollIsGreen();
  }

  const SpikeCfg := EngineConfig(0.01, 10.0, 10.0, 1.0, 0.03, 3, None, 0.0015)
  const SpikeFirstPoll := Poll(100.0, [], [], 100.0, 0.001, None)
  const SpikeSecondPoll := Poll(100.0, [Level(100.0, 1.0)], [], 110.0, 0.0, Some(Trades(Some(50.0), None)))

  lemma SpikeFirstPollIsRed()
    ensures Step(SpikeCfg, Fresh, SpikeFirstPoll).out.Returned?
    ensures Step(SpikeCfg, Fresh, SpikeFirstPoll).out.value.status == Red
    ensures Step(SpikeCfg, Fresh, SpikeFirstPoll).next == EngineState(Some(100.0), Some(0.0), Some(0.0), [])
  {
    BaselinesAlwaysAdvance(SpikeCfg, Fresh, SpikeFirstPoll);
    HistoryOnlyAdvancesPastRed(SpikeCfg, Fresh, SpikeFirstPoll);
  }

  lemma SpikeSecondPollIsGreen()
    ensures
      var r := Step(SpikeCfg, EngineState(Some(100.0), Some(0.0), Some(0.0), []), SpikeSecondPoll);
      r.out.Returned? && r.out.value.status == Green
  {
    var s1 := EngineState(Some(100.0), Some(0.0), Some(0.0), []);
    var book := [Level(100.0, 1.0)];
    assert SideUsd(book, Bids, Bound(Bids, 100.0, 0.01)) == 100.0 by {
      assert book[..|book| - 1] == [];
    }
    assert PctChange(110.0, 100.0) == 10.0;
    BaselinesAlwaysAdvance(SpikeCfg, s1, SpikeSecondPoll);
    MetricsOfStep(SpikeCfg, s1, SpikeSecondPoll);
    EmptyHistoryConfirmsAtOnce(SpikeCfg, s1, SpikeSecondPoll);
  }

  /** `GreenLightEngine`: the previous poll's values and the bounded depth
      history are updated in place by each `Update`. */
  class GreenLightEngine {
    const cfg: EngineConfig
    var prevOi: Option<real>
    var prevBidUsd: Option<real>
    var prevAskUsd: Option<real>
    var depthOkHist: seq<bool>
    /** Every depth flag ever appended to the history, oldest first. */
    ghost var depthOkLog: seq<bool>

    /** The history is the last `Capacity(cfg)` flags appended: it never holds
        more, and it evicts the oldest first. */
    ghost predicate Valid()
      reads this
    {
      depthOkHist == Window(depthOkLog, Capacity(cfg))
    }

    function State(): EngineState
      reads this
    {
      EngineState(prevOi, prevBidUsd, prevAskUsd, depthOkHist)
    }

    constructor (cfg: EngineConfig)
      ensures this.cfg == cfg && Valid()
      ensures State() == Fresh && depthOkLog == []
    {
      this.cfg := cfg;
      prevOi, prevBidUsd, prevAskUsd := None, None, None;
      depthOkHist := [];
      depthOkLog := [];
    }

    /** `update`: measure band liquidity, advance the baselines, look up the
        zone, then classify. */
    method Update(price: real, bids: seq<Level>, asks: seq<Level>, oi: real, fundingFrac: real,
                  trades: Option<Trades>)
      returns (r: Outcome<Report>)
      requires Valid()
      modifies this
      ensures Valid()
      ensures StepResult(r, State()) == Step(cfg, old(State()), Poll(price, bids, asks, oi, fundingFrac, trades))
      ensures depthOkLog ==
                if r.Returned? && r.value.status != Red
                then old(depthOkLog) + [DepthOkNow(cfg, r.value.metrics.depthDeltaUsd)]
                else old(depthOkLog)
    {
      ghost var before := State();
      ghost var log := depthOkLog;
      var fundingPct := fundingFrac * 100.0;

      var bidUsd, askUsd := DepthUsdWithinBand(bids, asks, price, cfg.depthBandPct);

      var depthDelta := 0.0;
      if prevBidUsd.Some? && prevAskUsd.Some? {
        depthDelta := (bidUsd - prevBidUsd.value) - (askUsd - prevAskUsd.value);
      }
      prevBidUsd, prevAskUsd := Some(bidUsd), Some(askUsd);

      var oiChgPct := 0.0;
      if prevOi.Some? {
        oiChgPct := PctChange(oi, prevOi.value);
      }
      prevOi := Some(oi);
      assert depthOkHist == before.depthOkHist && depthOkLog == log;
      assert depthDelta == DepthDelta(before, bidUsd, askUsd);
      assert oiChgPct == OiChange(before, oi);

      var zoneHit := NearestZone(price, cfg.ConfiguredZones(), cfg.zoneProximityPct);
      if zoneHit.ZeroDivisionError? {
        assert State() == Step(cfg, before, Poll(price, bids, asks, oi, fundingFrac, trades)).next;
        return ZeroDivisionError;
      }

      var takerDelta := TakerDeltaUsd(trades);

      var status, comments := Decide(zoneHit.value, depthDelta, oiChgPct, fundingPct, takerDelta);

      var metrics := Metrics(price, oi, oiChgPct, fundingPct, bidUsd, askUsd, depthDelta, takerDelta, zoneHit.value);
      r := Returned(Report(status, comments, metrics));
    }

    /** `depth_ok_hist.append(flag)` on a deque with `maxlen = Capacity(cfg)`:
        when the history is full its oldest flag is dropped. */
    method AppendDepthFlag(flag: bool)
      requires Valid()
      modifies this`depthOkHist, this`depthOkLog
      ensures Valid()
      ensures depthOkHist == Window(old(depthOkHist) + [flag], Capacity(cfg))
      ensures depthOkLog == old(depthOkLog) + [flag]
    {
      WindowAppend(depthOkHist, Capacity(cfg), flag);
      WindowSlides(depthOkLog, Capacity(cfg), flag);
      if |depthOkHist| == Capacity(cfg) {
        depthOkHist := depthOkHist[1..] + [flag];
      } else {
        depthOkHist := depthOkHist + [flag];
      }
      depthOkLog := depthOkLog + [flag];
    }

    /** `_decide`: the RED test returns before anything is recorded; otherwise
        the depth flag is appended (evicting the oldest when full) and the
        comments are appended in their fixed order. */
    method Decide(zoneHit: Option<ZoneHit>, depthDeltaUsd: real, oiChgPct: real, fundingPct: real,
                  takerDeltaUsd: real)
      returns (status: Status, comments: seq<Comment>)
      requires Valid()
      modifies this`depthOkHist, this`depthOkLog
      ensures Valid()
      ensures Verdict(status, comments, depthOkHist) ==
              Decision(cfg, old(depthOkHist), zoneHit, depthDeltaUsd, oiChgPct, fundingPct, takerDeltaUsd)
      ensures depthOkLog ==
                if status == Red then old(depthOkLog) else old(depthOkLog) + [DepthOkNow(cfg, depthDeltaUsd)]
    {
      comments := [];

      if Abs(fundingPct) > cfg.maxAbsFundingPct {
        return Red, [FundingExtreme(fundingPct)];
      }

      if |cfg.ConfiguredZones()| > 0 {
        if zoneHit.None? {
          comments := comments + [NotNearZone];
        } else {
          comments := comments + [NearZone(zoneHit.value)];
        }
      }
      assert comments == ZoneNotes(cfg, zoneHit);

      var depthOkNow := Abs(depthDeltaUsd) >= cfg.minDepthDeltaUsd;
      AppendDepthFlag(depthOkNow);
      var depthOk := if cfg.depthPersistPolls > 1 then false !in depthOkHist else depthOkNow;
      assert depthOk == DepthOk(cfg, depthOkHist, depthOkNow);

      var oiOk := Abs(oiChgPct) >= cfg.minOiMovePct;
      var takerOk := Abs(takerDeltaUsd) >= cfg.minTakerDeltaUsd;

      if !depthOkNow {
        comments := comments + [OrderbookLow(depthDeltaUsd)];
      } else if depthOk {
        comments := comments + [OrderbookActive(depthDeltaUsd)];
      } else {
        comments := comments + [OrderbookSpike(depthDeltaUsd)];
      }
      assert comments == ZoneNotes(cfg, zoneHit) + [DepthNote(depthOkNow, depthOk, depthDeltaUsd)];

      if !takerOk {
        comments := comments + [FlowWeak(takerDeltaUsd)];
      } else {
        var side := if takerDeltaUsd > 0.0 then Buyers else Sellers;
        comments := comments + [FlowConfirms(side, takerDeltaUsd)];
      }
      assert comments == ZoneNotes(cfg, zoneHit) + [DepthNote(depthOkNow, depthOk, depthDeltaUsd)]
                         + [TakerNote(cfg, takerDeltaUsd)];

      if !oiOk {
        comments := comments + [OiFlat(oiChgPct)];
      } else {
        comments := comments + [OiMoved(oiChgPct)];
      }
      assert comments == ZoneNotes(cfg, zoneHit) + [DepthNote(depthOkNow, depthOk, depthDeltaUsd)]
                         + [TakerNote(cfg, takerDeltaUsd)] + [OiNote(cfg, oiChgPct)];

      if depthOk && takerOk && oiOk {
        var hint := if takerDeltaUsd > 0.0 then Buyers else Sellers;
        comments := comments + [GreenSummary(hint)];
        return Green, comments;
      }

      return Wait, comments;
    }
  }
}

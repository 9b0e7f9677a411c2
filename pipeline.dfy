/** The per-asset step of a refresh cycle, as a function of the stored state:
    score the asset, classify it, record a transition alert, update the
    stored score and phase, emit one row. The class in store.dfy performs
    these steps in place and is proved against these functions. */
module Pipeline {
  import opened Wrappers
  import opened Scoring
  import opened Phases
  import opened Weekly
  import opened AssetUniverse

  /** The two handler variants. `Plain` is index-data.js; `Retrying` is
      pages/api/index-data.js. */
  datatype Variant = Plain | Retrying

  const AlertCapacity: nat := 20

  /** What the candle fetches and indicator computations of one asset
      delivered: the daily candles and the indicator values. */
  datatype Sample = Sample(day: Payload, ema15: Num, rsi15: Num, ema5: Num, rsi5: Num, rsiFast: Num)

  /** `None`: some fetch or computation for the asset raised. */
  type Feed = Option<Sample>

  datatype Alert = Alert(symbol: string, oldPhase: Phase, newPhase: Phase, price: real, score: real)

  /** A row of the ranking; `None` is the "–" placeholder. */
  datatype Status = Classified(phase: Phase) | NoTrade
  datatype Row = Row(symbol: string, price: Option<real>, prevScore: Option<real>,
                     score: Option<real>, status: Status)

  /** The process-lifetime state: stored scores and phases, and the alert log
      (most recent first). */
  datatype Snapshot = Snapshot(scores: map<string, real>, phases: map<string, Phase>, alerts: seq<Alert>)

  /** The store's invariant: scores and phases are stored together, every
      stored score is a clamped score and its stored phase is its
      classification, the log is within capacity and every alert is a change. */
  predicate ValidSnapshot(st: Snapshot)
  {
    st.scores.Keys == st.phases.Keys
    && (forall s :: s in st.scores ==> LowerClamp <= st.scores[s] <= UpperClamp
                                       && st.phases[s] == PhaseOf(st.scores[s]))
    && |st.alerts| <= AlertCapacity
    && (forall k :: 0 <= k < |st.alerts| ==> st.alerts[k].oldPhase != st.alerts[k].newPhase)
  }

  /** `unshift` then `pop` when over capacity. */
  function LogPush(log: seq<Alert>, e: Alert): (r: seq<Alert>)
    ensures 0 < |r| <= |log| + 1 && r[0] == e
    ensures forall k :: 0 < k < |r| ==> r[k] == log[k - 1]
    ensures |log| < AlertCapacity ==> r == [e] + log
    ensures |log| == AlertCapacity ==> r == [e] + log[..AlertCapacity - 1]
    ensures |log| <= AlertCapacity ==> |r| <= AlertCapacity
  {
    var l := [e] + log;
    if |l| > AlertCapacity then l[..|l| - 1] else l
  }

  /** The indicators scoring sees; a missing anchor is the NaN pair. */
  function IndicatorsOf(anchor: Option<Extrema>, smp: Sample): (ind: Indicators)
    // the weekly maximum binds to maxD and the minimum to minD; no anchor is NaN for both
    ensures anchor.Some? ==> ind.maxD == Finite(anchor.value.max) && ind.minD == Finite(anchor.value.min)
    ensures anchor.None? ==> ind.maxD == NaN && ind.minD == NaN
    ensures ind.ema15 == smp.ema15 && ind.rsi15 == smp.rsi15 && ind.ema5 == smp.ema5
         && ind.rsi5 == smp.rsi5 && ind.rsiFast == smp.rsiFast
  {
    Indicators(
      if anchor.Some? then Finite(anchor.value.max) else NaN,
      if anchor.Some? then Finite(anchor.value.min) else NaN,
      smp.ema15, smp.rsi15, smp.ema5, smp.rsi5, smp.rsiFast)
  }

  /** The asset's score, or `None` when its pipeline raised. Without a
      weekly anchor the first variant raises; the second scores with NaN anchors. */
  function AssetScore(v: Variant, price: real, feed: Feed): (r: Option<real>)
    ensures r.Some? ==> LowerClamp <= r.value <= UpperClamp
    ensures feed.None? ==> r.None?
    ensures v == Retrying ==> (r.Some? <==> feed.Some?)
    // the first variant also fails on an empty or non-list daily payload
    ensures v == Plain ==> (r.Some? <==> feed.Some? && WeeklyAnchorOf(feed.value.day).Some?)
    ensures r.Some? ==> r.value == ComputeScore(price, IndicatorsOf(WeeklyAnchorOf(feed.value.day), feed.value))
  {
    match feed
    case None => None
    case Some(smp) =>
      var anchor := WeeklyAnchorOf(smp.day);
      if anchor.None? && v == Plain then None
      else Some(ComputeScore(price, IndicatorsOf(anchor, smp)))
  }

  /** The stored score, or 0 (`prevScores[sym] || 0`; stored scores are never 0). */
  function StoredOrZero(st: Snapshot, sym: string): (r: real)
    ensures sym in st.scores ==> r == st.scores[sym]
    ensures sym !in st.scores ==> r == 0.0
    // a stored score is never 0, so `|| 0` only replaces a missing entry
    ensures ValidSnapshot(st) ==> (r == 0.0 <==> sym !in st.scores)
  {
    if sym in st.scores then st.scores[sym] else 0.0
  }

  /** The row of an asset whose pipeline raised. */
  function FailedRow(v: Variant, st: Snapshot, a: Asset): (row: Row)
    ensures row.symbol == a.symbol && row.status == NoTrade
    // first variant: "–" for price and score, the stored score only if there is one
    ensures v == Plain ==>
      row.price.None? && row.score.None?
      && row.prevScore == (if a.symbol in st.scores then Some(st.scores[a.symbol]) else None)
    // second variant: the price, score 0 and the stored score or 0
    ensures v == Retrying ==>
      row.price == Some(a.price) && row.score == Some(0.0)
      && row.prevScore == Some(if a.symbol in st.scores then st.scores[a.symbol] else 0.0)
  {
    match v
    case Plain =>
      Row(a.symbol, None, if a.symbol in st.scores then Some(st.scores[a.symbol]) else None, None, NoTrade)
    case Retrying =>
      Row(a.symbol, Some(a.price), Some(StoredOrZero(st, a.symbol)), Some(0.0), NoTrade)
  }

  datatype StepResult = StepResult(state: Snapshot, row: Row, alert: Option<Alert>)

  function Step(v: Variant, st: Snapshot, a: Asset, feed: Feed): (r: StepResult)
    ensures r.row.symbol == a.symbol
    // failure: a NoTrade row and no state change at all
    ensures AssetScore(v, a.price, feed).None? ==> r.state == st && r.row == FailedRow(v, st, a) && r.alert.None?
    // success: the new score is stored, the shown previous score is the old stored one or 0
    ensures AssetScore(v, a.price, feed).Some? ==>
      var s := AssetScore(v, a.price, feed).value;
      r.state.scores == st.scores[a.symbol := s]
      && r.state.phases == st.phases[a.symbol := PhaseOf(s)]
      && r.row == Row(a.symbol, Some(a.price), Some(StoredOrZero(st, a.symbol)), Some(s), Classified(PhaseOf(s)))
    // an alert fires iff there was a stored phase and the new phase differs
    ensures r.alert.Some? <==>
      AssetScore(v, a.price, feed).Some? && a.symbol in st.phases
      && st.phases[a.symbol] != PhaseOf(AssetScore(v, a.price, feed).value)
    ensures r.alert.Some? ==>
      var s := AssetScore(v, a.price, feed).value;
      r.alert.value == Alert(a.symbol, st.phases[a.symbol], PhaseOf(s), a.price, s)
      && r.state.alerts == LogPush(st.alerts, r.alert.value)
    ensures r.alert.None? ==> r.state.alerts == st.alerts
    ensures ValidSnapshot(st) ==> ValidSnapshot(r.state)
  {
    match AssetScore(v, a.price, feed)
    case None => StepResult(st, FailedRow(v, st, a), None)
    case Some(s) =>
      var p := PhaseOf(s);
      var alert :=
        if a.symbol in st.phases && st.phases[a.symbol] != p
        then Some(Alert(a.symbol, st.phases[a.symbol], p, a.price, s))
        else None;
      var log := if alert.Some? then LogPush(st.alerts, alert.value) else st.alerts;
      StepResult(
        Snapshot(st.scores[a.symbol := s], st.phases[a.symbol := p], log),
        Row(a.symbol, Some(a.price), Some(StoredOrZero(st, a.symbol)), Some(s), Classified(p)),
        alert)
  }

  datatype CycleResult = CycleResult(state: Snapshot, rows: seq<Row>, emitted: seq<Alert>)

  /** A cycle over the resolved assets, in order; `emitted` lists the alerts
      in the order they fired. */
  function Cycle(v: Variant, st: Snapshot, assets: seq<Asset>, feeds: seq<Feed>): (r: CycleResult)
    requires |feeds| == |assets|
    ensures |r.rows| == |assets|
    ensures forall k :: 0 <= k < |assets| ==> r.rows[k].symbol == assets[k].symbol
    ensures ValidSnapshot(st) ==> ValidSnapshot(r.state)
    decreases |assets|
  {
    if |assets| == 0 then CycleResult(st, [], [])
    else
      var n := |assets| - 1;
      var prev := Cycle(v, st, assets[..n], feeds[..n]);
      var s := Step(v, prev.state, assets[n], feeds[n]);
      CycleResult(s.state, prev.rows + [s.row],
                  prev.emitted + if s.alert.Some? then [s.alert.value] else [])
  }

  /** Row k is the step of asset k against the state the earlier assets left. */
  lemma {:induction false} CycleRowAt(v: Variant, st: Snapshot, assets: seq<Asset>, feeds: seq<Feed>, k: nat)
    requires |feeds| == |assets| && k < |assets|
    ensures Cycle(v, st, assets, feeds).rows[k]
         == Step(v, Cycle(v, st, assets[..k], feeds[..k]).state, assets[k], feeds[k]).row
  {
    var n := |assets| - 1;
    if k < n {
      CycleRowAt(v, st, assets[..n], feeds[..n], k);
      assert assets[..n][..k] == assets[..k];
      assert feeds[..n][..k] == feeds[..k];
    } else {
      assert assets[..n] == assets[..k];
      assert feeds[..n] == feeds[..k];
    }
  }

  /** A symbol no asset of the cycle carries keeps its stored score and phase. */
  lemma {:induction false} CycleLeavesOthers(v: Variant, st: Snapshot, assets: seq<Asset>, feeds: seq<Feed>, sym: string)
    requires |feeds| == |assets|
    requires forall k :: 0 <= k < |assets| ==> assets[k].symbol != sym
    ensures var r := Cycle(v, st, assets, feeds);
      (sym in r.state.scores <==> sym in st.scores)
      && (sym in st.scores ==> r.state.scores[sym] == st.scores[sym])
      && (sym in r.state.phases <==> sym in st.phases)
      && (sym in st.phases ==> r.state.phases[sym] == st.phases[sym])
  {
    if |assets| > 0 {
      var n := |assets| - 1;
      CycleLeavesOthers(v, st, assets[..n], feeds[..n], sym);
      CycleUnfold(v, st, assets, feeds);
      var prev := Cycle(v, st, assets[..n], feeds[..n]);
      assert assets[n].symbol != sym;
      var step := Step(v, prev.state, assets[n], feeds[n]);
      assert Cycle(v, st, assets, feeds).state == step.state;
    }
  }

  function Reversed(s: seq<Alert>): (r: seq<Alert>)
    ensures |r| == |s|
    ensures forall k :: 0 <= k < |s| ==> r[k] == s[|s| - 1 - k]
  {
    if s == [] then [] else [s[|s| - 1]] + Reversed(s[..|s| - 1])
  }

  /** The first `AlertCapacity` entries. */
  function Window(s: seq<Alert>): (r: seq<Alert>)
    ensures |r| <= AlertCapacity
  {
    if |s| <= AlertCapacity then s else s[..AlertCapacity]
  }

  lemma LogPushWindow(xs: seq<Alert>, e: Alert)
    ensures LogPush(Window(xs), e) == Window([e] + xs)
  {
    if |xs| >= AlertCapacity {
      assert Window(xs)[..AlertCapacity - 1] == xs[..AlertCapacity - 1];
      assert ([e] + xs)[..AlertCapacity] == [e] + xs[..AlertCapacity - 1];
    }
  }

  lemma ReversedSnoc(s: seq<Alert>, e: Alert)
    ensures Reversed(s + [e]) == [e] + Reversed(s)
  {
    assert (s + [e])[..|s|] == s;
  }

  /** Pushing a fired alert keeps the log equal to the window over the alerts fired so far. */
  lemma PushKeepsWindow(fired: seq<Alert>, earlier: seq<Alert>, e: Alert)
    ensures LogPush(Window(Reversed(fired) + earlier), e) == Window(Reversed(fired + [e]) + earlier)
  {
    ReversedSnoc(fired, e);
    LogPushWindow(Reversed(fired) + earlier, e);
    assert [e] + (Reversed(fired) + earlier) == Reversed(fired + [e]) + earlier;
  }

  lemma CycleUnfold(v: Variant, st: Snapshot, assets: seq<Asset>, feeds: seq<Feed>)
    requires |feeds| == |assets| > 0
    ensures var n := |assets| - 1;
      var prev := Cycle(v, st, assets[..n], feeds[..n]);
      var s := Step(v, prev.state, assets[n], feeds[n]);
      Cycle(v, st, assets, feeds).state == s.state
      && Cycle(v, st, assets, feeds).emitted == prev.emitted + if s.alert.Some? then [s.alert.value] else []
  {
  }

  /** After a cycle the log holds exactly the most recent alerts, newest
      first: those fired in this cycle in reverse order, then the earlier log,
      cut to the capacity. */
  lemma {:induction false} CycleLogIsRecentWindow(v: Variant, st: Snapshot, assets: seq<Asset>, feeds: seq<Feed>)
    requires |feeds| == |assets| && |st.alerts| <= AlertCapacity
    ensures Cycle(v, st, assets, feeds).state.alerts == Window(Reversed(Cycle(v, st, assets, feeds).emitted) + st.alerts)
  {
    if |assets| == 0 {
      assert Reversed([]) + st.alerts == st.alerts;
    } else {
      var n := |assets| - 1;
      var prev := Cycle(v, st, assets[..n], feeds[..n]);
      CycleLogIsRecentWindow(v, st, assets[..n], feeds[..n]);
      var s := Step(v, prev.state, assets[n], feeds[n]);
      CycleUnfold(v, st, assets, feeds);
      if s.alert.Some? {
        PushKeepsWindow(prev.emitted, st.alerts, s.alert.value);
      } else {
        assert prev.emitted + [] == prev.emitted;
      }
    }
  }

  /** A symbol's first observation never alerts (cold start). */
  lemma FirstObservationIsSilent(v: Variant, st: Snapshot, a: Asset, feed: Feed)
    requires a.symbol !in st.phases
    ensures Step(v, st, a, feed).alert.None?
  {
  }

  /** The universe a handler variant resolves, or `None` when either upstream
      payload lacks its list (the handler then answers an error). */
  function Universe(v: Variant, coins: Option<seq<Coin>>, instruments: Option<seq<Instrument>>): (r: Option<seq<Asset>>)
    ensures r.Some? <==> coins.Some? && instruments.Some?
    ensures r.Some? ==> r.value == Resolve(coins.value, FutureSet(instruments.value))
  {
    if coins.None? || instruments.None? then None
    else
      VariantsAgree(coins.value, instruments.value);
      match v
      case Plain => Some(ResolvePlain(coins.value, instruments.value))
      case Retrying => Some(ResolveRetrying(coins.value, instruments.value))
  }
}

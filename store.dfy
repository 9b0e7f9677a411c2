/** The handler's process-lifetime state and the per-asset loop that updates
    it in place: `prevScores` and `prevPhases` dictionaries and the
    most-recent-first alert list, read-modified-written once per asset. */
module Store {
  import opened Wrappers
  import opened Scoring
  import opened Phases
  import opened Weekly
  import opened AssetUniverse
  import opened Pipeline

  /** The handler's answer: the ranking and the alert log, or the error
      reported when the universe cannot be resolved. */
  datatype Response = Ranking(data: seq<Row>, alerts: seq<Alert>) | ServerError

  class StateStore {
    var prevScores: map<string, real>
    var prevPhases: map<string, Phase>
    var alerts: seq<Alert>

    function State(): Snapshot
      reads this
    {
      Snapshot(prevScores, prevPhases, alerts)
    }

    ghost predicate Valid()
      reads this
    {
      ValidSnapshot(State())
    }

    /** A cold start: no stored scores or phases and an empty log. */
    constructor ()
      ensures Valid()
      ensures State() == Snapshot(map[], map[], [])
    {
      prevScores := map[];
      prevPhases := map[];
      alerts := [];
    }

    /** One iteration of the per-asset loop. */
    method ProcessAsset(v: Variant, a: Asset, feed: Feed) returns (row: Row)
      requires Valid()
      modifies this
      ensures Valid()
      ensures State() == Step(v, old(State()), a, feed).state
      ensures row == Step(v, old(State()), a, feed).row
    {
      ghost var step := Step(v, State(), a, feed);
      var score: Option<real> := None;
      if feed.Some? {
        var smp := feed.value;
        var anchor: Option<Extrema> := None;
        if smp.day.Candles? {
          anchor := LastSundayMaxMin(smp.day.items);
        }
        if anchor.Some? || v == Retrying {
          score := Some(ComputeScore(a.price, IndicatorsOf(anchor, smp)));
        }
      }
      assert score == AssetScore(v, a.price, feed);

      if score.None? {
        var stored := if a.symbol in prevScores then Some(prevScores[a.symbol]) else None;
        row := if v == Plain
               then Row(a.symbol, None, stored, None, NoTrade)
               else Row(a.symbol, Some(a.price), Some(if stored.Some? then stored.value else 0.0), Some(0.0), NoTrade);
        return;
      }

      var s := score.value;
      var phase := PhaseOf(s);
      if a.symbol in prevPhases && prevPhases[a.symbol] != phase {
        alerts := [Alert(a.symbol, prevPhases[a.symbol], phase, a.price, s)] + alerts;
        if |alerts| > AlertCapacity {
          alerts := alerts[..|alerts| - 1];
        }
      }
      var shown := if a.symbol in prevScores then prevScores[a.symbol] else 0.0;
      prevPhases := prevPhases[a.symbol := phase];
      prevScores := prevScores[a.symbol := s];
      row := Row(a.symbol, Some(a.price), Some(shown), Some(s), Classified(phase));
      assert State() == step.state;
      assert ValidSnapshot(step.state);
    }

    /** The loop over the resolved assets: exactly one row per asset, in order. */
    method RunCycle(v: Variant, assets: seq<Asset>, feeds: seq<Feed>) returns (rows: seq<Row>)
      requires Valid()
      requires |feeds| == |assets|
      modifies this
      ensures Valid()
      ensures State() == Cycle(v, old(State()), assets, feeds).state
      ensures rows == Cycle(v, old(State()), assets, feeds).rows
    {
      ghost var start := State();
      rows := [];
      for i := 0 to |assets|
        invariant Valid()
        invariant State() == Cycle(v, start, assets[..i], feeds[..i]).state
        invariant rows == Cycle(v, start, assets[..i], feeds[..i]).rows
      {
        var row := ProcessAsset(v, assets[i], feeds[i]);
        rows := rows + [row];
        assert assets[..i + 1][..i] == assets[..i];
        assert feeds[..i + 1][..i] == feeds[..i];
      }
      assert assets[..|assets|] == assets;
      assert feeds[..|feeds|] == feeds;
    }

    /** One refresh: resolve the universe, run the cycle, answer the ranking
        and the log. A missing upstream list answers an error and leaves the
        state as it was. */
    method Handle(v: Variant, coins: Option<seq<Coin>>, instruments: Option<seq<Instrument>>, feeds: seq<Feed>)
      returns (resp: Response)
      requires Valid()
      requires Universe(v, coins, instruments).Some? ==> |feeds| == |Universe(v, coins, instruments).value|
      modifies this
      ensures Valid()
      ensures Universe(v, coins, instruments).None? ==> resp == ServerError && State() == old(State())
      ensures Universe(v, coins, instruments).Some? ==>
        var c := Cycle(v, old(State()), Universe(v, coins, instruments).value, feeds);
        State() == c.state && resp == Ranking(c.rows, c.state.alerts)
    {
      if coins.None? || instruments.None? {
        return ServerError;
      }
      var assets := if v == Plain then ResolvePlain(coins.value, instruments.value)
                     else ResolveRetrying(coins.value, instruments.value);
      var rows := RunCycle(v, assets, feeds);
      resp := Ranking(rows, alerts);
    }
  }
}

/** The rule score of one indicator row (backend/scoring.py, `generate_score`). */
module Scoring {
  import opened Wrappers

  /** The columns the score reads; a missing or NaN value is `None`. */
  datatype ScoreRow = ScoreRow(
    close: Option<real>, ema20: Option<real>, ema50: Option<real>,
    rsi: Option<real>, bbLower: Option<real>, volumeSpike: Option<real>)

  /** 30 points for an up-trend: the 20-day EMA above the 50-day EMA. */
  function TrendPoints(r: ScoreRow): (p: real)
    requires r.ema20.Some? && r.ema50.Some?
    ensures 0.0 <= p <= 30.0 && (p > 0.0 <==> r.ema20.value > r.ema50.value)
  {
    if r.ema20.value > r.ema50.value then 30.0 else 0.0
  }

  /** Momentum: 30 when oversold (RSI below 30), 5 when overbought (above 70),
      15 in between, nothing without an RSI. */
  function MomentumPoints(r: ScoreRow): (p: real)
    ensures 0.0 <= p <= 30.0 && (p == 30.0 <==> r.rsi.Some? && r.rsi.value < 30.0)
    ensures p == 5.0 <==> r.rsi.Some? && r.rsi.value > 70.0
    ensures p == 15.0 <==> r.rsi.Some? && 30.0 <= r.rsi.value <= 70.0
    ensures p == 0.0 <==> r.rsi.None?
  {
    if r.rsi.None? then 0.0
    else if r.rsi.value < 30.0 then 30.0
    else if r.rsi.value > 70.0 then 5.0
    else 15.0
  }

  /** 20 points for a close above the lower Bollinger band. */
  function BandPoints(r: ScoreRow): (p: real)
    requires r.close.Some?
    ensures 0.0 <= p <= 20.0 && (p > 0.0 <==> r.bbLower.Some? && r.close.value > r.bbLower.value)
  {
    if r.bbLower.Some? && r.close.value > r.bbLower.value then 20.0 else 0.0
  }

  /** 20 points for a volume spike above 1.8. */
  function VolumePoints(r: ScoreRow): (p: real)
    ensures 0.0 <= p <= 20.0 && (p > 0.0 <==> r.volumeSpike.Some? && r.volumeSpike.value > 1.8)
  {
    if r.volumeSpike.Some? && r.volumeSpike.value > 1.8 then 20.0 else 0.0
  }

  /** `generate_score`: 0 when the close or either EMA is missing, otherwise the
      points capped at 100. */
  function GenerateScore(r: ScoreRow): (score: real)
    ensures 0.0 <= score <= 100.0
    ensures r.close.None? || r.ema20.None? || r.ema50.None? ==> score == 0.0
  {
    if r.close.None? || r.ema20.None? || r.ema50.None? then 0.0
    else
      var points := TrendPoints(r) + MomentumPoints(r) + BandPoints(r) + VolumePoints(r);
      if points < 100.0 then points else 100.0
  }

  /** The cap never bites: the four components add up to at most 100, so a
      complete row scores exactly their sum. */
  lemma CapNeverBinds(r: ScoreRow)
    requires r.close.Some? && r.ema20.Some? && r.ema50.Some?
    ensures TrendPoints(r) + MomentumPoints(r) + BandPoints(r) + VolumePoints(r) <= 100.0
    ensures GenerateScore(r) == TrendPoints(r) + MomentumPoints(r) + BandPoints(r) + VolumePoints(r)
  {
  }

  /** Only the oversold-and-trending row with both bonuses reaches the maximum. */
  lemma FullScore(r: ScoreRow)
    requires r.close.Some? && r.ema20.Some? && r.ema50.Some?
    ensures GenerateScore(r) == 100.0 <==>
              r.ema20.value > r.ema50.value && r.rsi.Some? && r.rsi.value < 30.0 &&
              r.bbLower.Some? && r.close.value > r.bbLower.value &&
              r.volumeSpike.Some? && r.volumeSpike.value > 1.8
  {
  }
}

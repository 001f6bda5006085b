/**
 * The score alert gate of the `TelegramNotifications` actor
 * (`send_score` and `_is_notification_needed` in nautilus_channels/telegram.py):
 * one score event either stops early or yields the one message to send,
 * and the model dictionary's `prev_band_no` entry remembers the last band.
 */
module Notifications {
  import opened Wrappers
  import opened Bands
  import opened Formatting

  /** One score update: the close price and the row's values of the model's
      score columns, in the order the model names them; a cell may hold `None`. */
  datatype ScoreEvent = ScoreEvent(closePrice: real, scoreValues: seq<Option<real>>)

  /** Why an evaluation stopped, or the band and text of the one message it sends. */
  datatype Decision = NoScore | OverflowBand | SameBand | Notify(bandNo: nat, message: string)

  /** The decision of one evaluation and the `prev_band_no` it leaves behind. */
  datatype StepResult = StepResult(decision: Decision, prevBandNo: Option<int>)

  /** The decisions of a series of evaluations and the final `prev_band_no`. */
  datatype RunResult = RunResult(decisions: seq<Decision>, prevBandNo: Option<int>)

  /** The primary score: the first score column's value, absent when the model
      names no column or when that value is itself `None`. */
  function PrimaryScore(scoreValues: seq<Option<real>>): (r: Option<real>)
    ensures r.None? <==> scoreValues == [] || scoreValues[0].None?
    ensures r.Some? ==> Some(r.value) == scoreValues[0]
  {
    if scoreValues == [] then None else scoreValues[0]
  }

  /** Band movement: notify on the first evaluation or when the band index changed. */
  function NotificationNeeded(prev: Option<int>, bandNo: int): (needed: bool)
    ensures needed <==> prev != Some(bandNo)
  {
    prev.None? || prev.value != bandNo
  }

  /** One evaluation of `send_score`, as a function of the bands, the previous
      band index, the trading symbol and the event. */
  function ScoreStep(config: BandConfig, prev: Option<int>, symbol: string, event: ScoreEvent): (r: StepResult)
    ensures r.decision.NoScore? <==> event.scoreValues == [] || event.scoreValues[0].None?
    ensures event.scoreValues != [] && event.scoreValues[0].Some? ==>
      var score := event.scoreValues[0].value;
      var hit := GetTradeBand(config, score);
      && (r.decision.OverflowBand? <==> hit.band.None?)
      && (r.decision.Notify? <==> hit.band.Some? && prev != Some(hit.index))
      && (r.decision.Notify? ==>
            r.decision.bandNo == hit.index
            && r.decision.message == FormatScoreMessage(event.closePrice, score, hit.band.value, symbol))
      && (hit.band.Some? ==> r.prevBandNo == Some(hit.index))
    ensures r.decision.NoScore? || r.decision.OverflowBand? ==> r.prevBandNo == prev
  {
    match PrimaryScore(event.scoreValues)
    case None => StepResult(NoScore, prev)
    case Some(score) =>
      var hit := GetTradeBand(config, score);
      if hit.band.None? then StepResult(OverflowBand, prev)
      else if !NotificationNeeded(prev, hit.index) then StepResult(SameBand, Some(hit.index))
      else StepResult(Notify(hit.index, FormatScoreMessage(event.closePrice, score, hit.band.value, symbol)),
                      Some(hit.index))
  }

  /** Evaluations of a series of events, one after another, on the same model. */
  function Run(config: BandConfig, prev: Option<int>, symbol: string, events: seq<ScoreEvent>): (r: RunResult)
    ensures |r.decisions| == |events|
    decreases |events|
  {
    if events == [] then RunResult([], prev)
    else
      var step := ScoreStep(config, prev, symbol, events[0]);
      var rest := Run(config, step.prevBandNo, symbol, events[1..]);
      RunResult([step.decision] + rest.decisions, rest.prevBandNo)
  }

  /** The model dictionary of one scoring model: its two band lists and the
      `prev_band_no` entry, the only one the gate writes. */
  class ScoreModel {
    var positiveBands: seq<Band>
    var negativeBands: seq<Band>
    var prevBandNo: Option<int>

    constructor (positiveBands: seq<Band>, negativeBands: seq<Band>)
      ensures this.positiveBands == positiveBands && this.negativeBands == negativeBands
      ensures prevBandNo == None
    {
      this.positiveBands := positiveBands;
      this.negativeBands := negativeBands;
      prevBandNo := None;
    }

    function Config(): BandConfig
      reads this
    {
      BandConfig(positiveBands, negativeBands)
    }

    /** `_is_notification_needed`: records `bandNo` whatever the answer, and
        answers whether it differs from the recorded one. */
    method IsNotificationNeeded(bandNo: nat) returns (needed: bool)
      modifies this`prevBandNo
      ensures prevBandNo == Some(bandNo)
      ensures needed <==> old(prevBandNo) != Some(bandNo)
      ensures positiveBands == old(positiveBands) && negativeBands == old(negativeBands)
    {
      var prev := prevBandNo;
      prevBandNo := Some(bandNo);
      needed := prev.None? || prev.value != bandNo;
    }
  }

  /** `send_score`: the gate's early returns around the change detection.
      A `Notify` decision carries the one message handed to the transport. */
  method SendScore(model: ScoreModel, symbol: string, event: ScoreEvent) returns (d: Decision)
    modifies model`prevBandNo
    ensures StepResult(d, model.prevBandNo) == ScoreStep(old(model.Config()), old(model.prevBandNo), symbol, event)
    ensures model.Config() == old(model.Config())
  {
    var primary := PrimaryScore(event.scoreValues);
    if primary.None? {
      return NoScore;
    }
    var score := primary.value;
    var hit := GetTradeBand(model.Config(), score);
    if hit.band.None? {
      return OverflowBand;
    }
    var needed := model.IsNotificationNeeded(hit.index);
    if !needed {
      return SameBand;
    }
    d := Notify(hit.index, FormatScoreMessage(event.closePrice, score, hit.band.value, symbol));
  }

  /** The first evaluation that finds a band always notifies. */
  lemma FirstBandNotifies(config: BandConfig, symbol: string, event: ScoreEvent)
    requires PrimaryScore(event.scoreValues).Some?
    requires GetTradeBand(config, PrimaryScore(event.scoreValues).value).band.Some?
    ensures ScoreStep(config, None, symbol, event).decision.Notify?
  {
  }

  /** Two consecutive evaluations landing in the same band notify at most once:
      the second one is silent. */
  lemma SameBandTwiceIsSilent(config: BandConfig, prev: Option<int>, symbol: string, e1: ScoreEvent, e2: ScoreEvent)
    requires PrimaryScore(e1.scoreValues).Some? && PrimaryScore(e2.scoreValues).Some?
    requires GetTradeBand(config, PrimaryScore(e1.scoreValues).value).band.Some?
    requires GetTradeBand(config, PrimaryScore(e2.scoreValues).value).band.Some?
    requires GetTradeBand(config, PrimaryScore(e2.scoreValues).value).index
          == GetTradeBand(config, PrimaryScore(e1.scoreValues).value).index
    ensures ScoreStep(config, ScoreStep(config, prev, symbol, e1).prevBandNo, symbol, e2).decision == SameBand
  {
  }

  /** An event without a score, or whose score overflows every edge, leaves no
      trace: the next evaluation behaves as if it had not happened. */
  lemma SkippedEventLeavesNoTrace(config: BandConfig, prev: Option<int>, symbol: string, e1: ScoreEvent, e2: ScoreEvent)
    requires PrimaryScore(e1.scoreValues).None?
          || GetTradeBand(config, PrimaryScore(e1.scoreValues).value).band.None?
    ensures ScoreStep(config, ScoreStep(config, prev, symbol, e1).prevBandNo, symbol, e2)
         == ScoreStep(config, prev, symbol, e2)
  {
  }

  /** With no band for positive scores, a series of positive scores never
      notifies and never touches `prev_band_no`. */
  lemma {:induction false} EmptyPositiveBandsNeverNotify(
    config: BandConfig, prev: Option<int>, symbol: string, events: seq<ScoreEvent>)
    requires config.positiveBands == []
    requires forall k :: 0 <= k < |events| ==>
      PrimaryScore(events[k].scoreValues).Some? && PrimaryScore(events[k].scoreValues).value > 0.0
    ensures var r := Run(config, prev, symbol, events);
      r.prevBandNo == prev && forall k :: 0 <= k < |events| ==> r.decisions[k] == OverflowBand
    decreases |events|
  {
    if events != [] {
      EmptyListOverflows(config, PrimaryScore(events[0].scoreValues).value);
      EmptyPositiveBandsNeverNotify(config, prev, symbol, events[1..]);
    }
  }

  /** The k-th decision of a series is that of one evaluation from the state
      the first k events leave behind. */
  lemma {:induction false} RunStepAt(
    config: BandConfig, prev: Option<int>, symbol: string, events: seq<ScoreEvent>, k: nat)
    requires k < |events|
    ensures Run(config, prev, symbol, events).decisions[k]
         == ScoreStep(config, Run(config, prev, symbol, events[..k]).prevBandNo, symbol, events[k]).decision
    decreases k
  {
    var step := ScoreStep(config, prev, symbol, events[0]);
    if k > 0 {
      RunStepAt(config, step.prevBandNo, symbol, events[1..], k - 1);
      assert events[..k][1..] == events[1..][..k - 1];
    } else {
      assert events[..0] == [];
    }
  }

  /** In any series, the k-th event sends an alert exactly when it has a score,
      its band is a real one, and that band differs from the one recorded by
      the events before it. */
  lemma RunNotifiesExactlyOnChange(
    config: BandConfig, prev: Option<int>, symbol: string, events: seq<ScoreEvent>, k: nat)
    requires k < |events|
    ensures var recorded := Run(config, prev, symbol, events[..k]).prevBandNo;
      var primary := PrimaryScore(events[k].scoreValues);
      Run(config, prev, symbol, events).decisions[k].Notify? <==>
        && primary.Some?
        && GetTradeBand(config, primary.value).band.Some?
        && recorded != Some(GetTradeBand(config, primary.value).index)
  {
    RunStepAt(config, prev, symbol, events, k);
  }

  function PlainBand(edge: real): Band {
    Band(edge, "", "", false)
  }

  function Event(score: real): ScoreEvent {
    ScoreEvent(100.0, [Some(score)])
  }

  /** Bands with edges 1, 2 and 3 and scores 0.5, 1.5, 1.8, 2.5: alerts for
      bands 0 and 1, silence at 1.8 (still band 1), an alert for band 2. */
  lemma ThreeBandScenario(symbol: string)
    ensures var config := BandConfig([PlainBand(1.0), PlainBand(2.0), PlainBand(3.0)], []);
      var r := Run(config, None, symbol, [Event(0.5), Event(1.5), Event(1.8), Event(2.5)]);
      && r.decisions[0].Notify? && r.decisions[0].bandNo == 0
      && r.decisions[1].Notify? && r.decisions[1].bandNo == 1
      && r.decisions[2] == SameBand
      && r.decisions[3].Notify? && r.decisions[3].bandNo == 2
      && r.prevBandNo == Some(2)
  {
    var config := BandConfig([PlainBand(1.0), PlainBand(2.0), PlainBand(3.0)], []);
    var events := [Event(0.5), Event(1.5), Event(1.8), Event(2.5)];
    assert GetTradeBand(config, 0.5).index == 0;
    assert GetTradeBand(config, 1.5).index == 1;
    assert GetTradeBand(config, 1.8).index == 1;
    assert GetTradeBand(config, 2.5).index == 2;
    assert events[1..][1..][1..][1..] == [];
  }

  /** Both lists share one `prev_band_no`: a score moving from the first
      positive band to the first negative band is not reported. */
  lemma SignFlipToSameIndexIsSilent(symbol: string)
    ensures var config := BandConfig([PlainBand(1.0)], [PlainBand(-3.0), PlainBand(0.0)]);
      var r := Run(config, None, symbol, [Event(0.5), Event(-5.0)]);
      r.decisions[0].Notify? && r.decisions[1] == SameBand
  {
  }
}

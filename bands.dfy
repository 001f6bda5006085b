/**
 * Score bands and the band lookup of the score alert gate
 * (`TelegramNotifications._get_trade_band` in nautilus_channels/telegram.py).
 */
module Bands {
  import opened Wrappers

  /** One configured band: a score lands in it when it is at most `edge`.
      A key missing from a configured band dictionary is the empty string
      (for `sign` and `text`) or false (for `bold`). */
  datatype Band = Band(edge: real, sign: string, text: string, bold: bool)

  /** The two band lists of the model dictionary; a missing list is empty. */
  datatype BandConfig = BandConfig(positiveBands: seq<Band>, negativeBands: seq<Band>)

  /** The `(index, band)` pair the lookup returns; `band` is `None` for the
      overflow pair `(len(bands), None)`. */
  datatype BandHit = BandHit(index: nat, band: Option<Band>)

  /** Every edge of the list is at least the one before it. */
  predicate Sorted(bands: seq<Band>) {
    forall i, j :: 0 <= i < j < |bands| ==> bands[i].edge <= bands[j].edge
  }

  /** The list the lookup scans: positive bands only for a strictly positive score. */
  function SelectBands(config: BandConfig, score: real): (bands: seq<Band>)
    ensures score > 0.0 ==> bands == config.positiveBands
    ensures score <= 0.0 ==> bands == config.negativeBands
  {
    if score > 0.0 then config.positiveBands else config.negativeBands
  }

  /** The first-match scan of `enumerate(bands)` starting at position `i`. */
  function FirstBandFrom(bands: seq<Band>, score: real, i: nat): (r: BandHit)
    requires i <= |bands|
    ensures i <= r.index <= |bands|
    ensures forall j :: i <= j < r.index ==> bands[j].edge < score
    ensures r.index < |bands| ==> score <= bands[r.index].edge && r.band == Some(bands[r.index])
    ensures r.index == |bands| ==> r.band == None
    decreases |bands| - i
  {
    if i == |bands| then BandHit(|bands|, None)
    else if score <= bands[i].edge then BandHit(i, Some(bands[i]))
    else FirstBandFrom(bands, score, i + 1)
  }

  /** The first band of the selected list whose edge is at least the score,
      or the overflow pair when there is none. */
  function GetTradeBand(config: BandConfig, score: real): (r: BandHit)
    ensures var bands := if score > 0.0 then config.positiveBands else config.negativeBands;
      && r.index <= |bands|
      && (forall j :: 0 <= j < r.index ==> bands[j].edge < score)
      && (r.index < |bands| ==> score <= bands[r.index].edge && r.band == Some(bands[r.index]))
      && (r.index == |bands| <==> r.band == None)
  {
    FirstBandFrom(SelectBands(config, score), score, 0)
  }

  /** A score of exactly zero is looked up in the negative list. */
  lemma ZeroUsesNegativeBands(config: BandConfig)
    ensures GetTradeBand(config, 0.0) == FirstBandFrom(config.negativeBands, 0.0, 0)
  {
  }

  /** The lookup is the first match, whatever the order of the list: any band
      whose edge is at least the score lies at or after the returned index. */
  lemma FirstBandIsLeast(bands: seq<Band>, score: real, k: nat)
    requires k < |bands| && score <= bands[k].edge
    ensures FirstBandFrom(bands, score, 0).index <= k
    ensures FirstBandFrom(bands, score, 0).band.Some?
  {
  }

  /** On one list a larger score never lands in an earlier band. */
  lemma {:induction false} BandIndexMonotone(config: BandConfig, s1: real, s2: real)
    requires s1 <= s2
    requires s1 > 0.0 <==> s2 > 0.0
    ensures GetTradeBand(config, s1).index <= GetTradeBand(config, s2).index
  {
    var bands := SelectBands(config, s1);
    var i2 := GetTradeBand(config, s2).index;
    if i2 < |bands| {
      FirstBandIsLeast(bands, s1, i2);
    }
  }

  /** On a sorted list the returned band is the one whose edge bounds the score
      from above and whose predecessor's edge bounds it from below, and every
      later edge lies above the score too. */
  lemma SortedBandBounds(config: BandConfig, score: real)
    requires Sorted(SelectBands(config, score))
    ensures var bands := SelectBands(config, score);
      var r := GetTradeBand(config, score);
      && (0 < r.index ==> bands[r.index - 1].edge < score)
      && (forall j :: r.index <= j < |bands| ==> score <= bands[j].edge)
  {
  }

  /** An empty list sends every score of that sign to the overflow pair `(0, None)`. */
  lemma EmptyListOverflows(config: BandConfig, score: real)
    requires SelectBands(config, score) == []
    ensures GetTradeBand(config, score) == BandHit(0, None)
  {
  }
}

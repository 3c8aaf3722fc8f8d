/**
 * The roulette view: a spin request fixes the result through the roulette
 * service before the wheel animates, and the animation's completion settles
 * that result into the card and coin ledgers.
 */
module RouletteComponent {
  import opened Wrappers
  import opened Models
  import Seqs
  import CardService
  import CoinService
  import RouletteService

  function HasCaption(caption: string): Segment -> bool
  {
    (s: Segment) => s.caption == caption
  }

  /** The segments' findIndex on the result's label. */
  function TargetIndex(segments: seq<Segment>, caption: string): (k: Option<nat>)
    ensures k.Some? ==> k.value < |segments| && segments[k.value].caption == caption
    ensures k.Some? ==> forall j :: 0 <= j < k.value ==> segments[j].caption != caption
    ensures k.None? <==> forall j :: 0 <= j < |segments| ==> segments[j].caption != caption
  {
    Seqs.FirstIndex(segments, HasCaption(caption))
  }

  /**
   * When the view shows the roulette the session holds under its id, the
   * label lookup always finds a segment, at or before the one picked, with
   * the picked segment's label.
   */
  lemma TargetAlwaysFound(session: seq<RouletteJson>, ro: RouletteJson, u: real, now: string)
    requires 0.0 <= u < 1.0
    requires RouletteService.FindRoulette(session, ro.id) == Some(ro)
    requires RouletteService.Spin(session, ro.id, u, now).Some?
    ensures var res := RouletteService.Spin(session, ro.id, u, now).value;
            var k := RouletteService.Pick(RouletteService.Weights(ro.segments), RouletteService.Draw(ro.segments, u));
            && TargetIndex(ro.segments, res.segment.caption).Some?
            && TargetIndex(ro.segments, res.segment.caption).value <= k
            && ro.segments[TargetIndex(ro.segments, res.segment.caption).value].caption == ro.segments[k].caption
  {
    var res := RouletteService.Spin(session, ro.id, u, now).value;
    var k := RouletteService.Pick(RouletteService.Weights(ro.segments), RouletteService.Draw(ro.segments, u));
    assert ro.segments[k].caption == res.segment.caption;
  }

  /** getCoinAmount: the display amount of a coin tier. */
  function GetCoinAmount(tier: string): (n: nat)
    ensures n > 0 <==> tier in {"small", "medium", "large", "huge"}
    ensures tier == "small" ==> n == 5
    ensures tier == "medium" ==> n == 15
    ensures tier == "large" ==> n == 30
    ensures tier == "huge" ==> n == 75
  {
    match tier
    case "small" => 5
    case "medium" => 15
    case "large" => 30
    case "huge" => 75
    case _ => 0
  }

  /** How a spin completion ended: settled, or stopped by a coin-service error. */
  datatype Settlement = Settled | Failed(error: CoinService.CoinError)

  /** addCard(result.card): the stamped card joins the collection and its kind is unlocked for the shop. */
  method AddWonCard(cards: CardService.CardLedger, d: CardData, freshId: string, now: string)
    requires freshId != "" && now != ""
    modifies cards
    ensures cards.cards == old(cards.cards) + [Build(d, freshId, now)]
    ensures cards.unlocked == CardService.Unlock(old(cards.unlocked), d, now)
    ensures cards.usedCount == old(cards.usedCount) && cards.history == old(cards.history)
            && cards.catalog == old(cards.catalog)
  {
    var _ := cards.AddCard(CardService.Inline(d), None, freshId, now);
  }

  /**
   * How crediting a tier's reward leaves the coin ledger: the configuration
   * is loaded (and cached on success); a missing configuration or balance is
   * an error that keeps the balance, a reward of 0 keeps it, and any other
   * reward raises it by the reward.
   */
  predicate Rewarded(tier: string, coinsFetch: Option<CoinService.CoinsConfig>,
                     stored0: Option<int>, config0: Option<CoinService.CoinsConfig>,
                     stored1: Option<int>, config1: Option<CoinService.CoinsConfig>, s: Settlement)
  {
    var c := CoinService.LoadedConfig(config0, coinsFetch);
    && config1 == (if c.Ok? then Some(c.value) else None)
    && (c.Err? ==> s == Failed(CoinService.ConfigUnavailable) && stored1 == stored0)
    && (c.Ok? ==>
          var amount := CoinService.TableValue(c.value.coinRewards, tier);
          var b := CoinService.Balance(stored0, c.value);
          && (amount <= 0 ==> s == Settled && stored1 == stored0)
          && (amount > 0 && b.Err? ==> s == Failed(CoinService.InitialCoinsMissing) && stored1 == stored0)
          && (amount > 0 && b.Ok? ==> s == Settled && stored1 == Some(b.value + amount)))
  }

  /** getCoinReward(tier) then addCoins: the tier's reward from the loaded configuration is credited. */
  method CreditReward(coins: CoinService.CoinLedger, tier: string, coinsFetch: Option<CoinService.CoinsConfig>)
    returns (s: Settlement)
    modifies coins
    ensures Rewarded(tier, coinsFetch, old(coins.stored), old(coins.config), coins.stored, coins.config, s)
  {
    var cfg := coins.GetConfig(coinsFetch);
    if cfg.Err? {
      return Failed(cfg.error);
    }
    assert CoinService.LoadedConfig(coins.config, coinsFetch) == cfg;
    var amount := CoinService.TableValue(cfg.value.coinRewards, tier);
    var added := coins.AddCoins(amount, coinsFetch);
    if added.Err? {
      return Failed(added.error);
    }
    s := Settled;
  }

  /** The component state. */
  class RouletteView {
    var roulette: Option<RouletteJson>
    /** Whether the wheel widget exists (`state.wheel`). */
    var hasWheel: bool
    var spinning: bool
    var result: Option<RouletteService.SpinResult>
    var showResult: bool
    var predetermined: Option<RouletteService.SpinResult>
    /** The segment index the wheel is sent to; the stop angle is computed from it. */
    var target: Option<nat>

    constructor (roulette0: Option<RouletteJson>, hasWheel0: bool)
      ensures roulette == roulette0 && hasWheel == hasWheel0
      ensures !spinning && result.None? && !showResult && predetermined.None? && target.None?
    {
      roulette := roulette0;
      hasWheel := hasWheel0;
      spinning := false;
      result := None;
      showResult := false;
      predetermined := None;
      target := None;
    }

    /** handleSpin: fix the result, find its segment, start spinning. */
    method HandleSpin(service: RouletteService.Roulettes, u: real, now: string)
      requires 0.0 <= u < 1.0
      modifies this
      ensures roulette == old(roulette) && hasWheel == old(hasWheel)
      ensures var started := !old(spinning) && hasWheel && roulette.Some?
                             && RouletteService.Spin(service.session, roulette.value.id, u, now).Some?
                             && TargetIndex(roulette.value.segments,
                                            RouletteService.Spin(service.session, roulette.value.id, u, now).value.segment.caption).Some?;
              && (!started ==> spinning == old(spinning) && result == old(result) && showResult == old(showResult)
                               && predetermined == old(predetermined) && target == old(target))
              && (started ==>
                    var res := RouletteService.Spin(service.session, roulette.value.id, u, now).value;
                    && spinning && result.None? && !showResult
                    && predetermined == Some(res)
                    && target == TargetIndex(roulette.value.segments, res.segment.caption))
    {
      if spinning || !hasWheel || roulette.None? {
        return;
      }
      var res := service.SpinRoulette(roulette.value.id, u, now);
      if res.None? {
        return;
      }
      var k := TargetIndex(roulette.value.segments, res.value.segment.caption);
      if k.None? {
        return;
      }
      predetermined := res;
      spinning := true;
      showResult := false;
      result := None;
      target := k;
    }

    /**
     * handleSpinComplete: a card result adds the stamped card, a coin result
     * credits the tier's reward; then spinning stops and the result shows.
     * A coin-service error ends the completion with spinning unchanged.
     */
    method HandleSpinComplete(cards: CardService.CardLedger, coins: CoinService.CoinLedger,
                              coinsFetch: Option<CoinService.CoinsConfig>, freshId: string, now: string)
      returns (s: Settlement)
      requires freshId != "" && now != ""
      modifies this, cards, coins
      ensures roulette == old(roulette) && hasWheel == old(hasWheel)
      ensures predetermined == old(predetermined) && target == old(target)
      ensures old(predetermined).None? ==> s == Settled && spinning == old(spinning) && result == old(result)
                                           && showResult == old(showResult)
                                           && cards.cards == old(cards.cards) && coins.stored == old(coins.stored)
      ensures old(predetermined).Some? ==>
                var res := old(predetermined).value;
                && (res.card.Some? ==>
                      && cards.cards == old(cards.cards) + [Build(res.card.value, freshId, now)]
                      && cards.unlocked == CardService.Unlock(old(cards.unlocked), res.card.value, now))
                && (res.card.None? ==> cards.cards == old(cards.cards) && cards.unlocked == old(cards.unlocked))
                && (res.coins.None? ==> s == Settled && coins.stored == old(coins.stored) && coins.config == old(coins.config))
                && (res.coins.Some? ==>
                      Rewarded(res.coins.value, coinsFetch, old(coins.stored), old(coins.config), coins.stored, coins.config, s))
                && (s == Settled ==> !spinning && result == old(predetermined) && showResult)
                && (s.Failed? ==> res.coins.Some? && spinning == old(spinning) && result == old(result)
                                  && showResult == old(showResult))
      ensures old(predetermined).None? ==> cards.unlocked == old(cards.unlocked) && coins.config == old(coins.config)
      ensures cards.usedCount == old(cards.usedCount) && cards.history == old(cards.history)
              && cards.catalog == old(cards.catalog)
    {
      if predetermined.None? {
        return Settled;
      }
      var res := predetermined.value;
      if res.card.Some? {
        AddWonCard(cards, res.card.value, freshId, now);
      }
      if res.coins.Some? {
        var credited := CreditReward(coins, res.coins.value, coinsFetch);
        if credited.Failed? {
          return credited;
        }
      }
      spinning := false;
      result := Some(res);
      showResult := true;
      s := Settled;
    }
  }
}

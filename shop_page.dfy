/**
 * The shop: buys back a card kind the player has unlocked. A purchase spends
 * the price, looks the kind up again in the page's copy of the unlocked list,
 * and either refunds the price or adds a shop card to the collection.
 */
module ShopPage {
  import opened Wrappers
  import opened Models
  import Seqs
  import CardService
  import CoinService

  /** A field as a template literal renders it: an absent one becomes "undefined". */
  function Shown(o: Option<string>): string
  {
    if o.Some? then o.value else "undefined"
  }

  /** The purchasing marker `${name}_${type}_${rarity}` of an entry. */
  function PurchaseKey(e: CardService.UnlockedEntry): string
  {
    Shown(e.name) + "_" + Shown(e.cardType) + "_" + Shown(e.rarity)
  }

  /** renderShopCard's price: the rarity's price, or 0 without a configuration or a table entry. */
  function PriceFor(config: Option<CoinService.CoinsConfig>, rarity: Option<string>): (p: int)
    ensures config.None? ==> p == 0
    ensures config.Some? && Shown(rarity) in config.value.rarityPrices ==> p == config.value.rarityPrices[Shown(rarity)]
    ensures config.Some? && Shown(rarity) !in config.value.rarityPrices ==> p == 0
  {
    if config.None? then 0 else CoinService.TableValue(config.value.rarityPrices, Shown(rarity))
  }

  /** handlePurchase's match: an entry whose fields equal the rendered name, type and rarity. */
  function MatchesShown(e: CardService.UnlockedEntry): CardService.UnlockedEntry -> bool
  {
    (c: CardService.UnlockedEntry) =>
      c.name == Some(Shown(e.name)) && c.cardType == Some(Shown(e.cardType)) && c.rarity == Some(Shown(e.rarity))
  }

  /** handlePurchase's find: the first entry matching the rendered fields, or undefined. */
  function FindEntry(unlocked: seq<CardService.UnlockedEntry>, e: CardService.UnlockedEntry): (r: Option<CardService.UnlockedEntry>)
    ensures r.Some? ==> r.value in unlocked && MatchesShown(e)(r.value)
    ensures r.None? <==> forall i :: 0 <= i < |unlocked| ==> !MatchesShown(e)(unlocked[i])
    ensures r.Some? ==> exists k :: 0 <= k < |unlocked| && unlocked[k] == r.value
                                    && forall j :: 0 <= j < k ==> !MatchesShown(e)(unlocked[j])
  {
    var k := Seqs.FirstIndex(unlocked, MatchesShown(e));
    if k.Some? then Some(unlocked[k.value]) else None
  }

  /** An entry with all three fields present is found in any list holding it. */
  lemma FoundWhenComplete(unlocked: seq<CardService.UnlockedEntry>, i: nat)
    requires i < |unlocked|
    requires unlocked[i].name.Some? && unlocked[i].cardType.Some? && unlocked[i].rarity.Some?
    ensures FindEntry(unlocked, unlocked[i]).Some?
  {
    assert MatchesShown(unlocked[i])(unlocked[i]);
  }

  /** An entry missing its name, type or rarity is never found. */
  lemma NeverFoundWhenIncomplete(unlocked: seq<CardService.UnlockedEntry>, e: CardService.UnlockedEntry)
    requires e.name.None? || e.cardType.None? || e.rarity.None?
    requires forall i :: 0 <= i < |unlocked| ==>
               unlocked[i].name != Some("undefined") && unlocked[i].cardType != Some("undefined")
               && unlocked[i].rarity != Some("undefined")
    ensures FindEntry(unlocked, e).None?
  {
  }

  /** How a purchase ended. */
  datatype Outcome = Insufficient | Refunded | Purchased | Failed(error: CoinService.CoinError)

  /** A purchase on a known balance: spend, then refund when the kind is not found. */
  function Settle(balance: int, price: int, found: bool): (r: (Outcome, int))
    ensures r.0 == Purchased <==> 0 < price <= balance && found
    ensures r.0 == Insufficient <==> !(0 < price <= balance)
    ensures r.0 == Refunded <==> 0 < price <= balance && !found
    ensures r.0 == Purchased ==> r.1 == balance - price && r.1 >= 0
    ensures r.0 != Purchased ==> r.1 == balance
  {
    var spent := CoinService.Spent(balance, price);
    if !spent.0 then (Insufficient, spent.1)
    else if !found then (Refunded, CoinService.Credited(spent.1, price))
    else (Purchased, spent.1)
  }

  /** A card priced 0 (no price in the table) can never be bought. */
  lemma FreeCardNeverBought(balance: int, found: bool)
    ensures Settle(balance, 0, found).0 == Insufficient
    ensures Settle(balance, 0, found).1 == balance
  {
  }

  /** The quick-coin buttons: 0 resets the input, any other amount is added to it. */
  function QuickCoin(current: int, amount: int): (r: int)
    ensures amount == 0 ==> r == 0
    ensures amount != 0 ==> r - current == amount
  {
    if amount == 0 then 0 else current + amount
  }

  /** A run of quick-coin clicks on the amount input, in order. */
  function QuickCoins(current: int, amounts: seq<int>): (r: int)
    ensures amounts == [] ==> r == current
    ensures amounts != [] && amounts[|amounts| - 1] == 0 ==> r == 0
    decreases |amounts|
  {
    if amounts == [] then current
    else QuickCoin(QuickCoins(current, amounts[..|amounts| - 1]), amounts[|amounts| - 1])
  }

  function Total(amounts: seq<int>): int
    decreases |amounts|
  {
    if amounts == [] then 0 else Total(amounts[..|amounts| - 1]) + amounts[|amounts| - 1]
  }

  /** Two runs of clicks, one after the other, are one run. */
  lemma {:induction false} QuickCoinsAppend(current: int, a: seq<int>, b: seq<int>)
    ensures QuickCoins(current, a + b) == QuickCoins(QuickCoins(current, a), b)
    decreases |b|
  {
    if b != [] {
      assert (a + b)[..|a + b| - 1] == a + b[..|b| - 1];
      QuickCoinsAppend(current, a, b[..|b| - 1]);
    } else {
      assert a + b == a;
    }
  }

  /** Clicks without a reset add their amounts to what the input held. */
  lemma {:induction false} QuickCoinsAdd(current: int, amounts: seq<int>)
    requires forall i :: 0 <= i < |amounts| ==> amounts[i] != 0
    ensures QuickCoins(current, amounts) == current + Total(amounts)
    decreases |amounts|
  {
    if amounts != [] {
      QuickCoinsAdd(current, amounts[..|amounts| - 1]);
    }
  }

  /** After a reset, the input holds the sum of the later non-zero clicks, whatever came before. */
  lemma QuickCoinsAfterReset(current: int, before: seq<int>, after: seq<int>)
    requires forall i :: 0 <= i < |after| ==> after[i] != 0
    ensures QuickCoins(current, before + [0] + after) == Total(after)
  {
    QuickCoinsAppend(current, before + [0], after);
    QuickCoinsAppend(current, before, [0]);
    QuickCoinsAdd(0, after);
  }

  /** The page state. */
  class ShopView {
    var unlockedCards: seq<CardService.UnlockedEntry>
    var coins: int
    var purchasing: Option<string>
    var config: Option<CoinService.CoinsConfig>

    constructor (unlocked0: seq<CardService.UnlockedEntry>, coins0: int, config0: Option<CoinService.CoinsConfig>)
      ensures unlockedCards == unlocked0 && coins == coins0 && config == config0 && purchasing.None?
    {
      unlockedCards := unlocked0;
      coins := coins0;
      config := config0;
      purchasing := None;
    }

    /** handlePurchase for the button of entry `e`; the marker is cleared on every exit. */
    method HandlePurchase(e: CardService.UnlockedEntry, cards: CardService.CardLedger, ledger: CoinService.CoinLedger,
                          fetch: Option<CoinService.CoinsConfig>, freshId: string, now: string)
      returns (outcome: Outcome)
      requires freshId != "" && now != ""
      modifies this, cards, ledger
      ensures purchasing.None?
      ensures unlockedCards == old(unlockedCards) && config == old(config)
      ensures cards.unlocked == old(cards.unlocked) && cards.usedCount == old(cards.usedCount)
      ensures cards.history == old(cards.history)
      ensures var price := PriceFor(old(config), e.rarity);
              && (price <= 0 ==> outcome == Insufficient && ledger.stored == old(ledger.stored))
              && (price > 0 ==>
                    var c := CoinService.LoadedConfig(old(ledger.config), fetch);
                    && (c.Err? ==> outcome == Failed(CoinService.ConfigUnavailable) && ledger.stored == old(ledger.stored))
                    && (c.Ok? && CoinService.Balance(old(ledger.stored), c.value).Err? ==>
                          outcome == Failed(CoinService.InitialCoinsMissing) && ledger.stored == old(ledger.stored))
                    && (c.Ok? && CoinService.Balance(old(ledger.stored), c.value).Ok? ==>
                          var b := CoinService.Balance(old(ledger.stored), c.value).value;
                          var found := FindEntry(old(unlockedCards), e);
                          var settled := Settle(b, price, found.Some?);
                          && outcome == settled.0
                          && ledger.stored == Some(settled.1)
                          && (outcome == Purchased ==>
                                cards.cards == old(cards.cards) + [CardService.ShopCard(CardData(
                                  None, found.value.name, found.value.cardType, found.value.rarity, found.value.image,
                                  found.value.description, None, None, false, None), freshId, now)]
                                && coins == settled.1)))
      ensures outcome != Purchased ==> cards.cards == old(cards.cards) && coins == old(coins)
      ensures cards.catalog == old(cards.catalog)
      ensures var price := PriceFor(old(config), e.rarity);
              && (price <= 0 ==> ledger.config == old(ledger.config))
              && (price > 0 ==>
                    var c := CoinService.LoadedConfig(old(ledger.config), fetch);
                    ledger.config == (if c.Ok? then Some(c.value) else None))
    {
      purchasing := Some(PurchaseKey(e));
      var price := PriceFor(config, e.rarity);
      var spent := ledger.SpendCoins(price, fetch);
      if spent.Err? {
        purchasing := None;
        return Failed(spent.error);
      }
      if !spent.value {
        purchasing := None;
        return Insufficient;
      }
      var found := FindEntry(unlockedCards, e);
      if found.None? {
        var _ := ledger.AddCoins(price, fetch);
        purchasing := None;
        return Refunded;
      }
      var entry := found.value;
      var data := CardData(None, entry.name, entry.cardType, entry.rarity, entry.image, entry.description,
                           None, None, false, None);
      var _ := cards.PurchaseCard(CardService.Inline(data), None, freshId, now);
      var newCoins := ledger.GetCoins(fetch);
      if newCoins.Ok? {
        coins := newCoins.value;
      }
      purchasing := None;
      outcome := Purchased;
    }
  }
}

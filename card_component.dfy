/**
 * The card view's actions: use, unuse, sell and delete (with the optional
 * removal of the kind from the shop). The confirm() dialogs are inputs.
 */
module CardComponent {
  import opened Wrappers
  import opened Models
  import Seqs
  import CardService
  import CoinService
  import Text

  /** The hard-coded buy prices; an unknown rarity counts as 10. */
  function BuyPrice(rarity: string): (p: nat)
    ensures p in {10, 25, 50, 100, 200}
    ensures rarity !in {"common", "uncommon", "rare", "epic", "legendary"} ==> p == 10
  {
    match rarity
    case "common" => 10
    case "uncommon" => 25
    case "rare" => 50
    case "epic" => 100
    case "legendary" => 200
    case _ => 10
  }

  /** getSellPrice: half the buy price, rounded down. */
  function GetSellPrice(rarity: string): (p: nat)
    ensures 2 * p <= BuyPrice(rarity) < 2 * p + 2
    ensures p >= 5
  {
    BuyPrice(rarity) / 2
  }

  /** The sell prices, rarity by rarity. */
  lemma SellPrices()
    ensures GetSellPrice("common") == 5 && GetSellPrice("uncommon") == 12 && GetSellPrice("rare") == 25
    ensures GetSellPrice("epic") == 50 && GetSellPrice("legendary") == 100 && GetSellPrice("shiny") == 5
  {
  }

  /** The rarities of the price table, cheapest first. */
  const RarityOrder: seq<string> := ["common", "uncommon", "rare", "epic", "legendary"]

  /** Selling a card and buying one of its rarity back at the table price always costs coins, at least 5. */
  lemma SellLosesCoins(rarity: string)
    ensures GetSellPrice(rarity) < BuyPrice(rarity)
    ensures BuyPrice(rarity) - GetSellPrice(rarity) >= 5
  {
  }

  /** A rarer card sells for strictly more, and a rarity outside the table sells as a common card. */
  lemma SellPriceFollowsRarity(rarity: string)
    ensures forall i, j :: 0 <= i < j < |RarityOrder| ==> GetSellPrice(RarityOrder[i]) < GetSellPrice(RarityOrder[j])
    ensures rarity !in RarityOrder ==> GetSellPrice(rarity) == GetSellPrice("common")
  {
  }

  datatype Action = Use | Unuse | Sell | Delete | Unknown(name: string)

  /** The notifications handleAction shows. */
  datatype Notice =
    | CardUsed
    | CardSold(price: nat)
    | CardDeleted
    | DeletedAndLocked
    | DeletedStillInShop
    | ActionFailed
    | ActionError

  /** The filter handleAction uses to look for cards of the same kind. */
  function SameKind(c: CardJson): CardService.CardFilter
  {
    CardService.CardFilter(None, Some(c.cardType), Some(c.rarity), None, Some(c.name))
  }

  function KindOf(c: CardJson): CardService.Triple
  {
    CardService.Triple(Some(c.name), Some(c.cardType), Some(c.rarity))
  }

  /** A card of the deleted one's kind that is still held blocks the shop question. */
  lemma SameKindFound(cards: seq<CardJson>, c: CardJson, i: nat)
    requires i < |cards| && cards[i].cardType == c.cardType && cards[i].rarity == c.rarity && cards[i].name == c.name
    ensures |CardService.FilterCards(cards, SameKind(c))| > 0
  {
    Text.IncludesTrivial(Text.Lower(c.name));
    assert CardService.Matches(SameKind(c), cards[i]);
  }

  /** The part of the card and coin ledgers the view's actions can change. */
  datatype Ledgers = Ledgers(
    cards: seq<CardJson>,
    unlocked: seq<CardService.UnlockedEntry>,
    stored: Option<int>,
    config: Option<CoinService.CoinsConfig>)

  function Observe(cards: CardService.CardLedger, coins: CoinService.CoinLedger): Ledgers
    reads cards, coins
  {
    Ledgers(cards.cards, cards.unlocked, coins.stored, coins.config)
  }

  predicate Holds(cards: seq<CardJson>, id: string)
  {
    exists i :: 0 <= i < |cards| && cards[i].id == id
  }

  /** A card is held exactly when findIndex on its id finds it. */
  lemma HoldsIffFound(cards: seq<CardJson>, id: string)
    ensures Holds(cards, id) <==> Seqs.FirstIndex(cards, CardService.HasId(id)).Some?
  {
    if Holds(cards, id) {
      var i :| 0 <= i < |cards| && cards[i].id == id;
      assert CardService.HasId(id)(cards[i]);
    }
  }

  /**
   * What 'sell' leaves behind. Unconfirmed, or for a card no longer held,
   * nothing changes and the failure notice shows. Otherwise every copy is
   * removed and the coin configuration loaded; with a balance the sell price
   * is credited and the sale notice shows before the failure notice, and
   * without one the error notice shows and the balance stays.
   */
  predicate Sold(c: CardJson, confirmed: bool, hasOnDelete: bool, fetch: Option<CoinService.CoinsConfig>,
                 before: Ledgers, after: Ledgers, notices: seq<Notice>, deleted: Option<string>)
  {
    && after.unlocked == before.unlocked
    && (!confirmed || !Holds(before.cards, c.id) ==> notices == [ActionFailed] && deleted.None? && after == before)
    && (confirmed && Holds(before.cards, c.id) ==>
          var cfg := CoinService.LoadedConfig(before.config, fetch);
          var price := GetSellPrice(c.rarity);
          && after.cards == Seqs.Filter(before.cards, CardService.LacksId(c.id))
          && after.config == (if cfg.Ok? then Some(cfg.value) else None)
          && (cfg.Err? || CoinService.Balance(before.stored, cfg.value).Err? ==>
                notices == [ActionError] && deleted.None? && after.stored == before.stored)
          && (cfg.Ok? && CoinService.Balance(before.stored, cfg.value).Ok? ==>
                && notices == [CardSold(price), ActionFailed]
                && after.stored == Some(CoinService.Balance(before.stored, cfg.value).value + price)
                && deleted == (if hasOnDelete then Some(c.id) else None)))
  }

  /**
   * What 'delete' leaves behind. Unconfirmed, or for a card no longer held,
   * nothing changes and nothing shows. Otherwise every copy is removed; when
   * no card of its kind remains and the player agrees, the kind is locked from
   * the shop. The coins are never touched.
   */
  predicate Deleted(c: CardJson, confirmed: bool, confirmedShop: bool, hasOnDelete: bool,
                    before: Ledgers, after: Ledgers, notices: seq<Notice>, deleted: Option<string>)
  {
    && after.stored == before.stored && after.config == before.config
    && (!confirmed || !Holds(before.cards, c.id) ==> notices == [] && deleted.None? && after == before)
    && (confirmed && Holds(before.cards, c.id) ==>
          var rest := Seqs.Filter(before.cards, CardService.LacksId(c.id));
          var others := CardService.FilterCards(rest, SameKind(c));
          && after.cards == rest
          && deleted == (if hasOnDelete then Some(c.id) else None)
          && (|others| > 0 ==> notices == [CardDeleted] && after.unlocked == before.unlocked)
          && (|others| == 0 && !confirmedShop ==> notices == [DeletedStillInShop] && after.unlocked == before.unlocked)
          && (|others| == 0 && confirmedShop ==>
                notices == [DeletedAndLocked]
                && after.unlocked == (if CardService.IsUnlocked(before.unlocked, KindOf(c))
                                      then CardService.Lock(before.unlocked, KindOf(c))
                                      else before.unlocked)))
  }

  /** The view state. */
  class CardView {
    var card: Option<CardJson>
    /** Whether the parent passed an onDelete callback. */
    var hasOnDelete: bool

    constructor (card0: Option<CardJson>, hasOnDelete0: bool)
      ensures card == card0 && hasOnDelete == hasOnDelete0
    {
      card := card0;
      hasOnDelete := hasOnDelete0;
    }

    /**
     * handleAction. `confirmed` answers the first dialog, `confirmedShop` the
     * question whether to remove the kind from the shop. `deleted` is the id
     * handed to onDelete.
     */
    method HandleAction(action: Action, confirmed: bool, confirmedShop: bool,
                        cards: CardService.CardLedger, coins: CoinService.CoinLedger,
                        fetch: Option<CoinService.CoinsConfig>, now: string)
      returns (notices: seq<Notice>, deleted: Option<string>)
      modifies this, cards, coins
      ensures hasOnDelete == old(hasOnDelete)
      ensures cards.usedCount == old(cards.usedCount) && cards.history == old(cards.history)
              && cards.catalog == old(cards.catalog)
      ensures old(card).None? || action != Sell ==> coins.config == old(coins.config)
      ensures deleted.Some? ==> old(card).Some? && deleted.value == old(card).value.id && hasOnDelete
      ensures old(card).None? ==>
                notices == [] && deleted.None? && card == old(card)
                && cards.cards == old(cards.cards) && coins.stored == old(coins.stored)
      ensures old(card).Some? && action == Use ==>
                var c := old(card).value;
                var k := Seqs.FirstIndex(old(cards.cards), CardService.HasId(c.id));
                && cards.cards == CardService.UsedAt(old(cards.cards), c.id, now)
                && cards.unlocked == old(cards.unlocked) && coins.stored == old(coins.stored) && deleted.None?
                && (k.Some? && !old(cards.cards)[k.value].used ==>
                      notices == [CardUsed] && card == Some(Used(old(cards.cards)[k.value], now)))
                && (k.None? || old(cards.cards)[k.value].used ==> notices == [ActionFailed] && card == old(card))
      ensures old(card).Some? && action == Unuse ==>
                notices == [ActionError] && card == old(card) && deleted.None?
                && cards.cards == old(cards.cards) && coins.stored == old(coins.stored)
      ensures old(card).Some? && action == Sell ==>
                card == old(card)
                && Sold(old(card).value, confirmed, hasOnDelete, fetch, old(Observe(cards, coins)), Observe(cards, coins),
                        notices, deleted)
      ensures old(card).Some? && action == Delete ==>
                card == old(card)
                && Deleted(old(card).value, confirmed, confirmedShop, hasOnDelete,
                           old(Observe(cards, coins)), Observe(cards, coins), notices, deleted)
      ensures old(card).Some? && action.Unknown? ==>
                notices == [ActionFailed] && deleted.None? && card == old(card)
                && cards.cards == old(cards.cards) && coins.stored == old(coins.stored)
    {
      notices := [];
      deleted := None;
      if card.None? {
        return;
      }
      var c := card.value;
      match action {
        case Use =>
          notices := UseAction(c, cards, now);
        case Unuse =>
          // CardService has no unuseCard: the call throws and lands in the catch.
          notices := [ActionError];
        case Sell =>
          notices, deleted := SellCard(c, confirmed, cards, coins, fetch, now);
        case Delete =>
          notices, deleted := DeleteCard(c, confirmed, confirmedShop, cards, coins, now);
        case Unknown(_) =>
          notices := [ActionFailed];
      }
    }

    /** The 'use' branch: mark the first card with the id used and show its new state. */
    method UseAction(c: CardJson, cards: CardService.CardLedger, now: string) returns (notices: seq<Notice>)
      modifies this, cards
      ensures hasOnDelete == old(hasOnDelete)
      ensures cards.usedCount == old(cards.usedCount) && cards.history == old(cards.history)
              && cards.catalog == old(cards.catalog) && cards.unlocked == old(cards.unlocked)
      ensures var k := Seqs.FirstIndex(old(cards.cards), CardService.HasId(c.id));
              && cards.cards == CardService.UsedAt(old(cards.cards), c.id, now)
              && (k.Some? && !old(cards.cards)[k.value].used ==>
                    notices == [CardUsed] && card == Some(Used(old(cards.cards)[k.value], now)))
              && (k.None? || old(cards.cards)[k.value].used ==> notices == [ActionFailed] && card == old(card))
    {
      var r := cards.UseCard(c.id, now);
      if r.Some? {
        card := r;
        notices := [CardUsed];
      } else {
        notices := [ActionFailed];
      }
    }

    /** The 'sell' branch: confirm, remove, credit the sell price, notify the parent. */
    method SellCard(c: CardJson, confirmed: bool, cards: CardService.CardLedger, coins: CoinService.CoinLedger,
                fetch: Option<CoinService.CoinsConfig>, now: string)
      returns (notices: seq<Notice>, deleted: Option<string>)
      modifies cards, coins
      ensures cards.usedCount == old(cards.usedCount) && cards.history == old(cards.history)
      ensures cards.catalog == old(cards.catalog)
      ensures Sold(c, confirmed, hasOnDelete, fetch, old(Observe(cards, coins)), Observe(cards, coins), notices, deleted)
    {
      notices := [];
      deleted := None;
      HoldsIffFound(cards.cards, c.id);
      if !confirmed {
        return [ActionFailed], None;
      }
      var removed := cards.RemoveCard(c.id, false, now);
      if !removed {
        return [ActionFailed], None;
      }
      assert cards.cards == Seqs.Filter(old(cards.cards), CardService.LacksId(c.id));
      var price := GetSellPrice(c.rarity);
      var added := coins.AddCoins(price, fetch);
      ghost var cfg := CoinService.LoadedConfig(old(coins.config), fetch);
      if added.Err? {
        assert cfg.Err? || CoinService.Balance(old(coins.stored), cfg.value).Err?;
        return [ActionError], None;
      }
      assert cfg.Ok? && CoinService.Balance(old(coins.stored), cfg.value).Ok?;
      if hasOnDelete {
        deleted := Some(c.id);
      }
      // `result` stays null after a sale, so the failure notice follows the sale notice.
      notices := [CardSold(price), ActionFailed];
    }

    /** The 'delete' branch: confirm, remove, and offer to lock the last card of its kind from the shop. */
    method DeleteCard(c: CardJson, confirmed: bool, confirmedShop: bool,
                      cards: CardService.CardLedger, coins: CoinService.CoinLedger, now: string)
      returns (notices: seq<Notice>, deleted: Option<string>)
      modifies cards
      ensures cards.usedCount == old(cards.usedCount) && cards.history == old(cards.history)
              && cards.catalog == old(cards.catalog)
      ensures Deleted(c, confirmed, confirmedShop, hasOnDelete, old(Observe(cards, coins)), Observe(cards, coins),
                      notices, deleted)
    {
      notices := [];
      deleted := None;
      HoldsIffFound(cards.cards, c.id);
      if confirmed {
        var removed := cards.RemoveCard(c.id, false, now);
        if removed {
          var others := cards.GetCardsByFilter(SameKind(c));
          if |others| == 0 {
            if confirmedShop {
              var _ := cards.LockCard(CardData(Some(c.id), Some(c.name), Some(c.cardType), Some(c.rarity), c.image,
                                               Some(c.description), c.obtainedFrom, Some(c.obtainedAt), c.used, c.usedAt));
              notices := [DeletedAndLocked];
            } else {
              notices := [DeletedStillInShop];
            }
          } else {
            notices := [CardDeleted];
          }
          if hasOnDelete {
            deleted := Some(c.id);
          }
        }
      }
    }
  }
}

/**
 * The card ledger: the owned cards, the set of card kinds unlocked for the
 * shop, the count and list of cards removed after use, and the cached card
 * catalog. Each persisted key is a field of CardLedger; the catalog fetch is
 * an input (the catalog, or None when the fetch fails).
 */
module CardService {
  import opened Wrappers
  import opened Models
  import Seqs
  import Text

  /** A card kind as the unlocked list identifies it: (name, type, rarity), each possibly absent. */
  datatype Triple = Triple(name: Option<string>, cardType: Option<string>, rarity: Option<string>)

  /** One entry of the unlocked list. */
  datatype UnlockedEntry = UnlockedEntry(
    name: Option<string>,
    cardType: Option<string>,
    rarity: Option<string>,
    description: Option<string>,
    image: Option<string>,
    unlockedAt: string)

  /** What addCard and purchaseCard accept: a catalog id, or the card data itself. */
  datatype CardInput = ById(cardId: string) | Inline(data: CardData)

  /** Object.assign(card, updates): each present field replaces the card's. */
  datatype CardPatch = CardPatch(
    id: Option<string>,
    name: Option<string>,
    cardType: Option<string>,
    rarity: Option<string>,
    image: Option<Option<string>>,
    description: Option<string>,
    obtainedFrom: Option<Option<string>>,
    obtainedAt: Option<string>,
    used: Option<bool>,
    usedAt: Option<Option<string>>)

  /** The filter object of getCardsByFilter; an absent criterion is None. */
  datatype CardFilter = CardFilter(
    used: Option<bool>,
    cardType: Option<string>,
    rarity: Option<string>,
    obtainedFrom: Option<string>,
    name: Option<string>)

  /** The statistics object; byType and byRarity count each key by its multiplicity. */
  datatype Stats = Stats(total: nat, available: nat, used: nat, byType: multiset<string>, byRarity: multiset<string>)

  function DataTriple(d: CardData): Triple
  {
    Triple(d.name, d.cardType, d.rarity)
  }

  function EntryTriple(e: UnlockedEntry): Triple
  {
    Triple(e.name, e.cardType, e.rarity)
  }

  /** The entry unlockCard pushes for `d` at time `now`. */
  function EntryFor(d: CardData, now: string): (e: UnlockedEntry)
    ensures EntryTriple(e) == DataTriple(d) && e.unlockedAt == now
  {
    UnlockedEntry(d.name, d.cardType, d.rarity, d.description, d.image, now)
  }

  function HasId(id: string): CardJson -> bool
  {
    (c: CardJson) => c.id == id
  }

  function LacksId(id: string): CardJson -> bool
  {
    (c: CardJson) => c.id != id
  }

  predicate IsAvailable(c: CardJson)
  {
    !c.used
  }

  predicate IsUsed(c: CardJson)
  {
    c.used
  }

  function TypeOf(c: CardJson): string
  {
    c.cardType
  }

  function RarityOf(c: CardJson): string
  {
    c.rarity
  }

  function SameTriple(t: Triple): UnlockedEntry -> bool
  {
    (e: UnlockedEntry) => EntryTriple(e) == t
  }

  function OtherTriple(t: Triple): UnlockedEntry -> bool
  {
    (e: UnlockedEntry) => EntryTriple(e) != t
  }

  // ---------------------------------------------------------------- catalog

  /** loadCardsConfig: a cached catalog is kept; otherwise the fetched one, or an empty one on failure. */
  function LoadedCatalog(cache: Option<map<string, CardData>>, fetched: Option<map<string, CardData>>): (c: map<string, CardData>)
    ensures cache.Some? ==> c == cache.value
    ensures cache.None? && fetched.Some? ==> c == fetched.value
    ensures cache.None? && fetched.None? ==> c == map[]
  {
    if cache.Some? then cache.value else if fetched.Some? then fetched.value else map[]
  }

  // ------------------------------------------------------------ unlocked list

  /** isCardUnlocked: some entry has the triple. */
  predicate IsUnlocked(unlocked: seq<UnlockedEntry>, t: Triple)
  {
    exists i :: 0 <= i < |unlocked| && EntryTriple(unlocked[i]) == t
  }

  /** The unlocked list after unlockCard(d). */
  function Unlock(unlocked: seq<UnlockedEntry>, d: CardData, now: string): (r: seq<UnlockedEntry>)
    ensures IsUnlocked(r, DataTriple(d))
    ensures IsUnlocked(unlocked, DataTriple(d)) ==> r == unlocked
    ensures !IsUnlocked(unlocked, DataTriple(d)) ==> r == unlocked + [EntryFor(d, now)]
  {
    if IsUnlocked(unlocked, DataTriple(d)) then unlocked
    else
      var r := unlocked + [EntryFor(d, now)];
      assert EntryTriple(r[|unlocked|]) == DataTriple(d);
      r
  }

  /** The unlocked list after lockCard(d): every entry with another triple, in order. */
  function Lock(unlocked: seq<UnlockedEntry>, t: Triple): seq<UnlockedEntry>
  {
    Seqs.Filter(unlocked, OtherTriple(t))
  }

  /** Unlocking the same kind again changes nothing, whenever it happens. */
  lemma UnlockIdempotent(unlocked: seq<UnlockedEntry>, d: CardData, now: string, later: string)
    ensures Unlock(Unlock(unlocked, d, now), d, later) == Unlock(unlocked, d, now)
  {
  }

  /** Unlocking one kind keeps every other kind's status. */
  lemma UnlockKeepsOthers(unlocked: seq<UnlockedEntry>, d: CardData, now: string, t: Triple)
    requires t != DataTriple(d)
    ensures IsUnlocked(Unlock(unlocked, d, now), t) <==> IsUnlocked(unlocked, t)
  {
    var r := Unlock(unlocked, d, now);
    if IsUnlocked(unlocked, t) {
      var i :| 0 <= i < |unlocked| && EntryTriple(unlocked[i]) == t;
      assert r[i] == unlocked[i];
    }
  }

  /** lockCard reports a removal exactly when the kind was unlocked, and afterwards it is not. */
  lemma {:induction false} LockSpec(unlocked: seq<UnlockedEntry>, t: Triple)
    ensures |Lock(unlocked, t)| != |unlocked| <==> IsUnlocked(unlocked, t)
    ensures !IsUnlocked(Lock(unlocked, t), t)
    ensures forall u :: u != t ==> (IsUnlocked(Lock(unlocked, t), u) <==> IsUnlocked(unlocked, u))
  {
    var r := Lock(unlocked, t);
    Seqs.FilterKeepsAll(unlocked, OtherTriple(t));
    if IsUnlocked(unlocked, t) {
      var i :| 0 <= i < |unlocked| && EntryTriple(unlocked[i]) == t;
      assert !OtherTriple(t)(unlocked[i]);
    } else {
      assert forall i :: 0 <= i < |unlocked| ==> OtherTriple(t)(unlocked[i]);
    }
    forall u | u != t
      ensures IsUnlocked(r, u) <==> IsUnlocked(unlocked, u)
    {
      if IsUnlocked(unlocked, u) {
        var i :| 0 <= i < |unlocked| && EntryTriple(unlocked[i]) == u;
        assert unlocked[i] in r;
        var j :| 0 <= j < |r| && r[j] == unlocked[i];
      }
      if IsUnlocked(r, u) {
        var j :| 0 <= j < |r| && EntryTriple(r[j]) == u;
        assert r[j] in unlocked;
        var i :| 0 <= i < |unlocked| && unlocked[i] == r[j];
      }
    }
  }

  // ----------------------------------------------------------------- filters

  /** One criterion of getCardsByFilter on a string field: an empty or absent criterion matches everything. */
  predicate FieldMatches(criterion: Option<string>, value: string)
  {
    !Truthy(criterion) || value == criterion.value
  }

  /** The name criterion: the lower-cased name contains the lower-cased term. */
  predicate NameMatches(criterion: Option<string>, name: string)
  {
    !Truthy(criterion) || Text.Includes(Text.Lower(name), Text.Lower(criterion.value))
  }

  /** getCardsByFilter's predicate: every given criterion holds. */
  predicate Matches(f: CardFilter, c: CardJson)
  {
    && (f.used.None? || c.used == f.used.value)
    && FieldMatches(f.cardType, c.cardType)
    && FieldMatches(f.rarity, c.rarity)
    && (!Truthy(f.obtainedFrom) || c.obtainedFrom == f.obtainedFrom)
    && NameMatches(f.name, c.name)
  }

  function MatchesFilter(f: CardFilter): CardJson -> bool
  {
    (c: CardJson) => Matches(f, c)
  }

  /** getCardsByFilter over a card list. */
  function FilterCards(cards: seq<CardJson>, f: CardFilter): (r: seq<CardJson>)
    ensures Seqs.Subseq(r, cards)
    ensures forall i :: 0 <= i < |r| ==> Matches(f, r[i])
    ensures forall i :: 0 <= i < |cards| && Matches(f, cards[i]) ==> cards[i] in r
    ensures forall c :: multiset(r)[c] == (if Matches(f, c) then multiset(cards)[c] else 0)
  {
    Seqs.FilterMultiplicity(cards, MatchesFilter(f));
    Seqs.Filter(cards, MatchesFilter(f))
  }

  /** The empty filter {} keeps every card. */
  lemma EmptyFilterKeepsAll(cards: seq<CardJson>)
    ensures FilterCards(cards, CardFilter(None, None, None, None, None)) == cards
  {
    Seqs.FilterAll(cards, MatchesFilter(CardFilter(None, None, None, None, None)));
  }

  /** A name criterion is matched by every name that contains it, whatever the case. */
  lemma NameCriterionCaseInsensitive(term: string, name: string, k: nat)
    requires term != "" && k + |term| <= |name|
    requires Text.Lower(name)[k..k + |term|] == Text.Lower(term)
    ensures NameMatches(Some(term), name)
  {
    Text.IncludesAt(Text.Lower(name), Text.Lower(term), k);
  }

  // ------------------------------------------------------------------- stats

  function Available(cards: seq<CardJson>): seq<CardJson>
  {
    Seqs.Filter(cards, IsAvailable)
  }

  function UsedCards(cards: seq<CardJson>): seq<CardJson>
  {
    Seqs.Filter(cards, IsUsed)
  }

  /** One more card moves exactly one of the counters getCardStats keeps. */
  lemma CountStep(cards: seq<CardJson>, c: CardJson)
    ensures |Available(cards + [c])| == |Available(cards)| + (if c.used then 0 else 1)
    ensures |UsedCards(cards + [c])| == |UsedCards(cards)| + (if c.used then 1 else 0)
    ensures multiset(Seqs.Map(Available(cards + [c]), TypeOf))
            == multiset(Seqs.Map(Available(cards), TypeOf)) + (if c.used then multiset{} else multiset{c.cardType})
    ensures multiset(Seqs.Map(Available(cards + [c]), RarityOf))
            == multiset(Seqs.Map(Available(cards), RarityOf)) + (if c.used then multiset{} else multiset{c.rarity})
  {
    Seqs.FilterSnoc(cards, c, IsAvailable);
    Seqs.FilterSnoc(cards, c, IsUsed);
    if !c.used {
      Seqs.MapSnoc(Available(cards), c, TypeOf);
      Seqs.MapSnoc(Available(cards), c, RarityOf);
    }
  }

  /** getCardStats for the held cards and the historical used count. */
  function StatsOf(cards: seq<CardJson>, historical: nat): (r: Stats)
    ensures r.total == r.available + r.used
    ensures r.used >= historical && r.available <= |cards|
  {
    Seqs.FilterSplit(cards, IsAvailable, IsUsed);
    Stats(
      |cards| + historical,
      |Available(cards)|,
      |UsedCards(cards)| + historical,
      multiset(Seqs.Map(Available(cards), TypeOf)),
      multiset(Seqs.Map(Available(cards), RarityOf)))
  }

  /** Counts that agree with the filters make up StatsOf. */
  lemma StatsFromCounts(cards: seq<CardJson>, historical: nat, available: nat, used: nat,
                        byType: multiset<string>, byRarity: multiset<string>)
    requires available == |Available(cards)| && used == |UsedCards(cards)|
    requires byType == multiset(Seqs.Map(Available(cards), TypeOf))
    requires byRarity == multiset(Seqs.Map(Available(cards), RarityOf))
    ensures StatsOf(cards, historical) == Stats(|cards| + historical, available, used + historical, byType, byRarity)
  {
  }

  /** The total is the available cards plus the used ones, and both tallies count exactly the available cards. */
  lemma StatsBalance(cards: seq<CardJson>, historical: nat)
    ensures StatsOf(cards, historical).total == StatsOf(cards, historical).available + StatsOf(cards, historical).used
    ensures |StatsOf(cards, historical).byType| == StatsOf(cards, historical).available
    ensures |StatsOf(cards, historical).byRarity| == StatsOf(cards, historical).available
  {
    Seqs.FilterSplit(cards, IsAvailable, IsUsed);
  }

  /** After removing id → card count k ≥ 1 and adding `bump` to the historical count, the total moves by bump − k. */
  lemma RemoveTotal(cards: seq<CardJson>, id: string, historical: nat, bump: nat)
    ensures StatsOf(Seqs.Filter(cards, LacksId(id)), historical + bump).total + |Seqs.Filter(cards, HasId(id))|
         == StatsOf(cards, historical).total + bump
  {
    Seqs.FilterSplit(cards, HasId(id), LacksId(id));
  }

  /** removeCard(id, true) on a card held once keeps the total; removeCard(id, false) lowers it by one. */
  lemma RemoveSingleTotal(cards: seq<CardJson>, id: string, historical: nat)
    requires |Seqs.Filter(cards, HasId(id))| == 1
    ensures StatsOf(Seqs.Filter(cards, LacksId(id)), historical + 1).total == StatsOf(cards, historical).total
    ensures StatsOf(Seqs.Filter(cards, LacksId(id)), historical).total + 1 == StatsOf(cards, historical).total
  {
    RemoveTotal(cards, id, historical, 1);
    RemoveTotal(cards, id, historical, 0);
  }

  /** cleanupUsedCards keeps the total: the used cards move into the historical count. */
  lemma CleanupTotal(cards: seq<CardJson>, historical: nat)
    ensures StatsOf(Available(cards), historical + |UsedCards(cards)|).total == StatsOf(cards, historical).total
    ensures StatsOf(Available(cards), historical + |UsedCards(cards)|).available == StatsOf(cards, historical).available
  {
    Seqs.FilterSplit(cards, IsAvailable, IsUsed);
    Seqs.FilterAll(Available(cards), IsAvailable);
  }

  /** The stamp cleanupUsedCards gives a used card before archiving it. */
  function Archived(c: CardJson, now: string): (r: CardJson)
    ensures r.usedAt == (if Truthy(c.usedAt) then c.usedAt else Some(now))
    ensures r.(usedAt := c.usedAt) == c
  {
    c.(usedAt := Some(OrElse(c.usedAt, now)))
  }

  function ArchivedAt(now: string): CardJson -> CardJson
  {
    (c: CardJson) => Archived(c, now)
  }

  /** The card purchaseCard builds from `d`. */
  function ShopCard(d: CardData, freshId: string, now: string): (c: CardJson)
    requires freshId != "" && now != ""
    ensures c.obtainedFrom == Some("shop") && c.obtainedAt == now && !c.used && c.usedAt == None
    ensures WellFormed(c)
  {
    Build(d.(obtainedFrom := Some("shop"), obtainedAt := Some(now), used := false, usedAt := None), freshId, now)
  }

  /** Object.assign(card, patch). */
  function Patched(c: CardJson, p: CardPatch): CardJson
  {
    CardJson(
      if p.id.Some? then p.id.value else c.id,
      if p.name.Some? then p.name.value else c.name,
      if p.cardType.Some? then p.cardType.value else c.cardType,
      if p.rarity.Some? then p.rarity.value else c.rarity,
      if p.image.Some? then p.image.value else c.image,
      if p.description.Some? then p.description.value else c.description,
      if p.obtainedFrom.Some? then p.obtainedFrom.value else c.obtainedFrom,
      if p.obtainedAt.Some? then p.obtainedAt.value else c.obtainedAt,
      if p.used.Some? then p.used.value else c.used,
      if p.usedAt.Some? then p.usedAt.value else c.usedAt)
  }

  /** The empty patch changes nothing, and a patch of only `used` changes only that field. */
  lemma PatchSpec(c: CardJson, u: bool)
    ensures Patched(c, CardPatch(None, None, None, None, None, None, None, None, None, None)) == c
    ensures Patched(c, CardPatch(None, None, None, None, None, None, None, None, Some(u), None)) == c.(used := u)
  {
  }

  /** The collection after useCard: the first card with the id, when unused, is marked used. */
  function UsedAt(cards: seq<CardJson>, id: string, now: string): (r: seq<CardJson>)
    ensures |r| == |cards|
  {
    var k := Seqs.FirstIndex(cards, HasId(id));
    if k.Some? && !cards[k.value].used then cards[k.value := Used(cards[k.value], now)] else cards
  }

  /** The collection after the intended unuseCard: the first card with the id, when used, is marked unused. */
  function UnusedAt(cards: seq<CardJson>, id: string): (r: seq<CardJson>)
    ensures |r| == |cards|
  {
    var k := Seqs.FirstIndex(cards, HasId(id));
    if k.Some? && cards[k.value].used then cards[k.value := Unused(cards[k.value])] else cards
  }

  /**
   * Using a held, unused card that was never used and then unusing it gives
   * back the collection as it was.
   */
  lemma UseThenUnuseRestores(cards: seq<CardJson>, id: string, now: string)
    requires exists i :: 0 <= i < |cards| && cards[i].id == id
    requires var k := Seqs.FirstIndex(cards, HasId(id)).value; !cards[k].used && cards[k].usedAt == None
    ensures UsedAt(cards, id, now) != cards
    ensures UnusedAt(UsedAt(cards, id, now), id) == cards
  {
    var k := Seqs.FirstIndex(cards, HasId(id));
    assert HasId(id)(cards[Seqs.FirstIndex(cards, HasId(id)).value]);
    var used := UsedAt(cards, id, now);
    assert used[k.value].used;
    assert forall j :: 0 <= j < |used| ==> (HasId(id)(used[j]) <==> HasId(id)(cards[j]));
    assert Seqs.FirstIndex(used, HasId(id)) == k;
    Models.UseThenUnuse(cards[k.value], now);
  }

  /** getCardStats' loop: counts the available and used cards, and tallies the available ones by type and rarity. */
  method CountCards(cards: seq<CardJson>) returns (available: nat, used: nat, byType: multiset<string>, byRarity: multiset<string>)
    ensures available == |Available(cards)| && used == |UsedCards(cards)|
    ensures byType == multiset(Seqs.Map(Available(cards), TypeOf))
    ensures byRarity == multiset(Seqs.Map(Available(cards), RarityOf))
  {
    var i := 0;
    available, used := 0, 0;
    byType, byRarity := multiset{}, multiset{};
    while i < |cards|
      invariant 0 <= i <= |cards|
      invariant available == |Available(cards[..i])|
      invariant used == |UsedCards(cards[..i])|
      invariant byType == multiset(Seqs.Map(Available(cards[..i]), TypeOf))
      invariant byRarity == multiset(Seqs.Map(Available(cards[..i]), RarityOf))
    {
      var c := cards[i];
      assert cards[..i + 1] == cards[..i] + [c];
      CountStep(cards[..i], c);
      if c.used {
        used := used + 1;
      } else {
        available := available + 1;
        byType := byType + multiset{c.cardType};
        byRarity := byRarity + multiset{c.rarity};
      }
      i := i + 1;
    }
    assert cards[..i] == cards;
  }

  /** The card service state. */
  class CardLedger {
    /** The owned cards (key `cards`). */
    var cards: seq<CardJson>
    /** The card kinds unlocked for the shop (key `unlocked_cards`). */
    var unlocked: seq<UnlockedEntry>
    /** Cards removed after use (key `used_cards_count`). */
    var usedCount: nat
    /** The cards removed after use (key `used_cards_history`). */
    var history: seq<CardJson>
    /** The cached catalog (module variable `cardsConfig`). */
    var catalog: Option<map<string, CardData>>

    constructor (cards0: seq<CardJson>, unlocked0: seq<UnlockedEntry>, count0: nat, history0: seq<CardJson>)
      ensures cards == cards0 && unlocked == unlocked0 && usedCount == count0 && history == history0
      ensures catalog == None
    {
      cards := cards0;
      unlocked := unlocked0;
      usedCount := count0;
      history := history0;
      catalog := None;
    }

    /** loadCardsConfig: loads once and caches, also the empty fallback. */
    method LoadCatalog(fetched: Option<map<string, CardData>>) returns (cfg: map<string, CardData>)
      modifies this
      ensures cfg == LoadedCatalog(old(catalog), fetched)
      ensures catalog == Some(cfg)
      ensures cards == old(cards) && unlocked == old(unlocked) && usedCount == old(usedCount) && history == old(history)
    {
      if catalog.None? {
        catalog := Some(if fetched.Some? then fetched.value else map[]);
      }
      cfg := catalog.value;
    }

    /** getCardDefinition: the catalog entry, or null. */
    method GetCardDefinition(cardId: string, fetched: Option<map<string, CardData>>) returns (d: Option<CardData>)
      modifies this
      ensures catalog == Some(LoadedCatalog(old(catalog), fetched))
      ensures d == (if cardId in catalog.value then Some(catalog.value[cardId]) else None)
      ensures cards == old(cards) && unlocked == old(unlocked) && usedCount == old(usedCount) && history == old(history)
    {
      var cfg := LoadCatalog(fetched);
      d := if cardId in cfg then Some(cfg[cardId]) else None;
    }

    /** The card data behind an input, or the not-found error of addCard and purchaseCard. */
    method Resolve(input: CardInput, fetched: Option<map<string, CardData>>) returns (r: Result<CardData, string>)
      modifies this
      ensures input.Inline? ==> r == Ok(input.data) && catalog == old(catalog)
      ensures input.ById? ==> catalog == Some(LoadedCatalog(old(catalog), fetched))
      ensures input.ById? && input.cardId in catalog.value ==> r == Ok(catalog.value[input.cardId])
      ensures input.ById? && input.cardId !in catalog.value ==> r.Err?
      ensures cards == old(cards) && unlocked == old(unlocked) && usedCount == old(usedCount) && history == old(history)
    {
      if input.ById? {
        var d := GetCardDefinition(input.cardId, fetched);
        if d.None? {
          return Err("Card with ID \"" + input.cardId + "\" not found in configuration");
        }
        return Ok(d.value);
      }
      return Ok(input.data);
    }

    /** addCard: appends the constructed card and unlocks the template's kind. */
    method AddCard(input: CardInput, fetched: Option<map<string, CardData>>, freshId: string, now: string)
      returns (r: Result<CardJson, string>)
      requires freshId != "" && now != ""
      modifies this
      ensures input.ById? ==> catalog == Some(LoadedCatalog(old(catalog), fetched))
      ensures input.Inline? ==> catalog == old(catalog)
      ensures r.Err? ==> input.ById? && input.cardId !in catalog.value
      ensures r.Err? ==> cards == old(cards) && unlocked == old(unlocked)
      ensures r.Ok? ==> exists d :: (input.Inline? ==> d == input.data)
                                 && (input.ById? ==> input.cardId in catalog.value && d == catalog.value[input.cardId])
                                 && r.value == Build(d, freshId, now)
                                 && cards == old(cards) + [r.value]
                                 && unlocked == Unlock(old(unlocked), d, now)
      ensures input.ById? && input.cardId in catalog.value ==> r.Ok?
      ensures input.Inline? ==> r.Ok?
      ensures usedCount == old(usedCount) && history == old(history)
    {
      var data := Resolve(input, fetched);
      if data.Err? {
        return Err(data.error);
      }
      var card := Build(data.value, freshId, now);
      cards := cards + [card];
      UnlockCard(data.value, now);
      r := Ok(card);
    }

    /** getCardById: the first card with the id, or null. */
    function GetCardById(cardId: string): (r: Option<CardJson>)
      reads this
      ensures r.Some? <==> exists i :: 0 <= i < |cards| && cards[i].id == cardId
      ensures r.Some? ==> r.value.id == cardId && r.value in cards
      ensures r.Some? ==> exists k :: 0 <= k < |cards| && cards[k] == r.value
                                      && forall j :: 0 <= j < k ==> cards[j].id != cardId
    {
      var k := Seqs.FirstIndex(cards, HasId(cardId));
      if k.Some? then Some(cards[k.value]) else None
    }

    /** updateCard: patches the first card with the id; null when there is none. */
    method UpdateCard(cardId: string, patch: CardPatch) returns (r: Option<CardJson>)
      modifies this
      ensures var k := Seqs.FirstIndex(old(cards), HasId(cardId));
              && (k.None? ==> r.None? && cards == old(cards))
              && (k.Some? ==> r == Some(Patched(old(cards)[k.value], patch)) && cards == old(cards)[k.value := r.value])
      ensures unlocked == old(unlocked) && usedCount == old(usedCount) && history == old(history) && catalog == old(catalog)
    {
      var k := Seqs.FirstIndex(cards, HasId(cardId));
      if k.None? {
        return None;
      }
      var c := Patched(cards[k.value], patch);
      cards := cards[k.value := c];
      r := Some(c);
    }

    /** useCard: marks the first card with the id as used, unless it already is. */
    method UseCard(cardId: string, now: string) returns (r: Option<CardJson>)
      modifies this
      ensures cards == UsedAt(old(cards), cardId, now)
      ensures var k := Seqs.FirstIndex(old(cards), HasId(cardId));
              && (k.None? || old(cards)[k.value].used ==> r.None?)
              && (k.Some? && !old(cards)[k.value].used ==> r == Some(Used(old(cards)[k.value], now)))
      ensures unlocked == old(unlocked) && usedCount == old(usedCount) && history == old(history) && catalog == old(catalog)
    {
      var k := Seqs.FirstIndex(cards, HasId(cardId));
      if k.None? || cards[k.value].used {
        return None;
      }
      var c := Used(cards[k.value], now);
      cards := cards[k.value := c];
      r := Some(c);
    }

    /**
     * unuseCard as the card view evidently means it: marks the first card with
     * the id as unused when it is used; null otherwise.
     */
    method UnuseCard(cardId: string) returns (r: Option<CardJson>)
      modifies this
      ensures cards == UnusedAt(old(cards), cardId)
      ensures var k := Seqs.FirstIndex(old(cards), HasId(cardId));
              && (k.None? || !old(cards)[k.value].used ==> r.None?)
              && (k.Some? && old(cards)[k.value].used ==> r == Some(Unused(old(cards)[k.value])))
      ensures unlocked == old(unlocked) && usedCount == old(usedCount) && history == old(history) && catalog == old(catalog)
    {
      var k := Seqs.FirstIndex(cards, HasId(cardId));
      if k.None? || !cards[k.value].used {
        return None;
      }
      var c := Unused(cards[k.value]);
      cards := cards[k.value := c];
      r := Some(c);
    }

    /** removeCard: drops every card with the id; with isUsed the first one is archived as used. */
    method RemoveCard(cardId: string, isUsed: bool, now: string) returns (removed: bool)
      modifies this
      ensures var k := Seqs.FirstIndex(old(cards), HasId(cardId));
              && (removed <==> k.Some?)
              && (!removed ==> cards == old(cards) && usedCount == old(usedCount) && history == old(history))
              && (removed ==> cards == Seqs.Filter(old(cards), LacksId(cardId)))
              && (removed && isUsed ==>
                    usedCount == old(usedCount) + 1 && history == old(history) + [Used(old(cards)[k.value], now)])
              && (removed && !isUsed ==> usedCount == old(usedCount) && history == old(history))
      ensures forall i :: 0 <= i < |cards| ==> cards[i].id != cardId
      ensures unlocked == old(unlocked) && catalog == old(catalog)
    {
      var k := Seqs.FirstIndex(cards, HasId(cardId));
      var filtered := Seqs.Filter(cards, LacksId(cardId));
      Seqs.FilterKeepsAll(cards, LacksId(cardId));
      if k.None? {
        assert cards == filtered by {
          Seqs.FilterAll(cards, LacksId(cardId));
        }
        return false;
      }
      assert !LacksId(cardId)(cards[k.value]);
      if isUsed {
        usedCount := usedCount + 1;
        history := history + [Used(cards[k.value], now)];
      }
      cards := filtered;
      removed := true;
    }

    /** getCardsByFilter. */
    function GetCardsByFilter(f: CardFilter): (r: seq<CardJson>)
      reads this
      ensures Seqs.Subseq(r, cards)
      ensures forall i :: 0 <= i < |r| ==> Matches(f, r[i])
      ensures forall i :: 0 <= i < |cards| && Matches(f, cards[i]) ==> cards[i] in r
      ensures forall c :: multiset(r)[c] == (if Matches(f, c) then multiset(cards)[c] else 0)
    {
      FilterCards(cards, f)
    }

    /** getCardStats: one counting pass over the held cards, plus the historical used count. */
    method GetCardStats() returns (s: Stats)
      ensures s == StatsOf(cards, usedCount)
    {
      var available, used, byType, byRarity := CountCards(cards);
      StatsFromCounts(cards, usedCount, available, used, byType, byRarity);
      s := Stats(|cards| + usedCount, available, used + usedCount, byType, byRarity);
    }

    /** cleanupUsedCards: archives the used cards, keeps the others; true when any was removed. */
    method CleanupUsedCards(now: string) returns (removedAny: bool)
      modifies this
      ensures removedAny <==> |UsedCards(old(cards))| > 0
      ensures cards == Available(old(cards))
      ensures usedCount == old(usedCount) + |UsedCards(old(cards))|
      ensures history == old(history) + Seqs.Map(UsedCards(old(cards)), ArchivedAt(now))
      ensures unlocked == old(unlocked) && catalog == old(catalog)
    {
      var usedCards := UsedCards(cards);
      var availableCards := Available(cards);
      Seqs.FilterSplit(cards, IsAvailable, IsUsed);
      if |usedCards| > 0 {
        usedCount := usedCount + |usedCards|;
        Archive(usedCards, now);
      }
      removedAny := |availableCards| != |cards|;
      cards := availableCards;
    }

    /** The forEach of cleanupUsedCards: stamps each used card and appends it to the history. */
    method Archive(usedCards: seq<CardJson>, now: string)
      modifies this
      ensures history == old(history) + Seqs.Map(usedCards, ArchivedAt(now))
      ensures cards == old(cards) && usedCount == old(usedCount) && unlocked == old(unlocked) && catalog == old(catalog)
    {
      var i := 0;
      while i < |usedCards|
        invariant 0 <= i <= |usedCards|
        invariant history == old(history) + Seqs.Map(usedCards[..i], ArchivedAt(now))
        invariant cards == old(cards) && usedCount == old(usedCount) && unlocked == old(unlocked) && catalog == old(catalog)
      {
        assert usedCards[..i + 1] == usedCards[..i] + [usedCards[i]];
        Seqs.MapSnoc(usedCards[..i], usedCards[i], ArchivedAt(now));
        assert ArchivedAt(now)(usedCards[i]) == Archived(usedCards[i], now);
        history := history + [Archived(usedCards[i], now)];
        i := i + 1;
      }
      assert usedCards[..i] == usedCards;
    }

    /** clearAllCards: empties the collection and the used-card record; the unlocked list stays. */
    method ClearAllCards() returns (ok: bool)
      modifies this
      ensures ok
      ensures cards == [] && usedCount == 0 && history == []
      ensures unlocked == old(unlocked) && catalog == old(catalog)
    {
      usedCount := 0;
      history := [];
      cards := [];
      ok := true;
    }

    /** unlockCard. */
    method UnlockCard(d: CardData, now: string)
      modifies this
      ensures unlocked == Unlock(old(unlocked), d, now)
      ensures cards == old(cards) && usedCount == old(usedCount) && history == old(history) && catalog == old(catalog)
    {
      var k := Seqs.FirstIndex(unlocked, SameTriple(DataTriple(d)));
      if k.None? {
        unlocked := unlocked + [EntryFor(d, now)];
      } else {
        assert SameTriple(DataTriple(d))(unlocked[k.value]);
      }
    }

    /** isCardUnlocked. */
    function IsCardUnlocked(d: CardData): (r: bool)
      reads this
      ensures r <==> exists i :: 0 <= i < |unlocked| && EntryTriple(unlocked[i]) == DataTriple(d)
    {
      Seqs.FirstIndex(unlocked, SameTriple(DataTriple(d))).Some?
    }

    /** purchaseCard: appends a shop card; the unlocked list and the coins are untouched. */
    method PurchaseCard(input: CardInput, fetched: Option<map<string, CardData>>, freshId: string, now: string)
      returns (r: Result<CardJson, string>)
      requires freshId != "" && now != ""
      modifies this
      ensures input.ById? ==> catalog == Some(LoadedCatalog(old(catalog), fetched))
      ensures input.Inline? ==> catalog == old(catalog)
      ensures r.Err? ==> input.ById? && input.cardId !in catalog.value && cards == old(cards)
      ensures r.Ok? ==> exists d :: (input.Inline? ==> d == input.data)
                                 && (input.ById? ==> input.cardId in catalog.value && d == catalog.value[input.cardId])
                                 && r.value == ShopCard(d, freshId, now)
                                 && cards == old(cards) + [r.value]
      ensures input.ById? && input.cardId in catalog.value ==> r.Ok?
      ensures input.Inline? ==> r.Ok?
      ensures unlocked == old(unlocked) && usedCount == old(usedCount) && history == old(history)
    {
      var data := Resolve(input, fetched);
      if data.Err? {
        return Err(data.error);
      }
      var card := ShopCard(data.value, freshId, now);
      cards := cards + [card];
      r := Ok(card);
    }

    /** lockCard: removes the kind from the unlocked list; true when something was removed. */
    method LockCard(d: CardData) returns (removed: bool)
      modifies this
      ensures unlocked == (if removed then Lock(old(unlocked), DataTriple(d)) else old(unlocked))
      ensures removed <==> IsUnlocked(old(unlocked), DataTriple(d))
      ensures !IsUnlocked(unlocked, DataTriple(d))
      ensures cards == old(cards) && usedCount == old(usedCount) && history == old(history) && catalog == old(catalog)
    {
      var filtered := Lock(unlocked, DataTriple(d));
      LockSpec(unlocked, DataTriple(d));
      if |filtered| != |unlocked| {
        unlocked := filtered;
        removed := true;
      } else {
        removed := false;
      }
    }
  }
}

/**
 * The collection page: filters the held cards by a search term, a rarity and
 * a status, and sorts the result by date obtained, name or rarity.
 */
module CardsPage {
  import opened Wrappers
  import opened Models
  import Seqs
  import Text
  import CardService

  /** The page's filter settings. */
  datatype Filters = Filters(search: string, rarity: string, status: string)

  /** The filter names updateFilter is called with. */
  datatype FilterKind = Search | Rarity | Status

  /** The sort keys the page offers. */
  datatype SortKey = ObtainedAt | Name | RarityKey

  const DefaultFilters: Filters := Filters("", "all", "available")
  const ClearedFilters: Filters := Filters("", "all", "all")

  // ---------------------------------------------------------------- filters

  /** The search filter: name or description contains the term, ignoring case. */
  predicate SearchHit(search: string, c: CardJson)
  {
    search == "" || Text.Includes(Text.Lower(c.name), Text.Lower(search))
                 || Text.Includes(Text.Lower(c.description), Text.Lower(search))
  }

  predicate RarityHit(rarity: string, c: CardJson)
  {
    rarity == "all" || c.rarity == rarity
  }

  /** The status filter: 'used' keeps used cards, any other value but 'all' keeps unused ones. */
  predicate StatusHit(status: string, c: CardJson)
  {
    status == "all" || c.used == (status == "used")
  }

  function SearchFilter(f: Filters): CardJson -> bool
  {
    (c: CardJson) => SearchHit(f.search, c)
  }

  function RarityFilter(f: Filters): CardJson -> bool
  {
    (c: CardJson) => RarityHit(f.rarity, c)
  }

  function StatusFilter(f: Filters): CardJson -> bool
  {
    (c: CardJson) => StatusHit(f.status, c)
  }

  predicate Shown(f: Filters, c: CardJson)
  {
    SearchHit(f.search, c) && RarityHit(f.rarity, c) && StatusHit(f.status, c)
  }

  /** The three criteria at once, as one filter predicate. */
  function ShownFilter(f: Filters): CardJson -> bool
  {
    (c: CardJson) => Shown(f, c)
  }

  /** applyFilters' three passes, in the page's order; a pass that is switched off keeps every card. */
  function FilteredView(cards: seq<CardJson>, f: Filters): (r: seq<CardJson>)
    ensures |r| <= |cards|
    ensures forall i :: 0 <= i < |r| ==> r[i] in cards && Shown(f, r[i])
    ensures forall i :: 0 <= i < |cards| && Shown(f, cards[i]) ==> cards[i] in r
  {
    Seqs.Filter(Seqs.Filter(Seqs.Filter(cards, SearchFilter(f)), RarityFilter(f)), StatusFilter(f))
  }

  /** The three passes are one pass by all three criteria: the filtered list is a subsequence of the cards
      and holds every card meeting all three criteria exactly as often as the list does, and no other card. */
  lemma FilteredViewSpec(cards: seq<CardJson>, f: Filters)
    ensures FilteredView(cards, f) == Seqs.Filter(cards, ShownFilter(f))
    ensures Seqs.Subseq(FilteredView(cards, f), cards)
    ensures forall i :: 0 <= i < |FilteredView(cards, f)| ==> Shown(f, FilteredView(cards, f)[i])
    ensures forall i :: 0 <= i < |cards| && Shown(f, cards[i]) ==> cards[i] in FilteredView(cards, f)
    ensures forall c :: multiset(FilteredView(cards, f))[c] == (if Shown(f, c) then multiset(cards)[c] else 0)
  {
    var sr := (c: CardJson) => SearchHit(f.search, c) && RarityHit(f.rarity, c);
    Seqs.FilterFuse(cards, SearchFilter(f), RarityFilter(f), sr);
    Seqs.FilterFuse(cards, sr, StatusFilter(f), ShownFilter(f));
    Seqs.FilterMultiplicity(cards, ShownFilter(f));
  }

  /** With the cleared filters every card is shown, in order. */
  lemma ClearedShowsAll(cards: seq<CardJson>)
    ensures FilteredView(cards, ClearedFilters) == cards
  {
    Seqs.FilterAll(cards, SearchFilter(ClearedFilters));
    Seqs.FilterAll(cards, RarityFilter(ClearedFilters));
    Seqs.FilterAll(cards, StatusFilter(ClearedFilters));
  }

  /** The default filters show exactly the unused cards. */
  lemma DefaultShowsAvailable(cards: seq<CardJson>)
    ensures FilteredView(cards, DefaultFilters) == CardService.Available(cards)
  {
    Seqs.FilterAll(cards, SearchFilter(DefaultFilters));
    Seqs.FilterAll(cards, RarityFilter(DefaultFilters));
    assert forall c :: StatusFilter(DefaultFilters)(c) == CardService.IsAvailable(c);
    FilterSame(cards, StatusFilter(DefaultFilters), CardService.IsAvailable);
  }

  /** Filters by two predicates that agree everywhere give the same list. */
  lemma {:induction false} FilterSame(s: seq<CardJson>, p: CardJson -> bool, q: CardJson -> bool)
    requires forall x :: p(x) == q(x)
    ensures Seqs.Filter(s, p) == Seqs.Filter(s, q)
    decreases |s|
  {
    if s != [] {
      FilterSame(s[..|s| - 1], p, q);
    }
  }

  /** The search ignores case on both sides: lower-casing the term or the card's text changes nothing. */
  lemma SearchIgnoresCase(search: string, c: CardJson)
    ensures SearchHit(Text.Lower(search), c) == SearchHit(search, c)
    ensures SearchHit(search, c.(name := Text.Lower(c.name), description := Text.Lower(c.description))) == SearchHit(search, c)
  {
    Text.LowerIdempotent(search);
    Text.LowerIdempotent(c.name);
    Text.LowerIdempotent(c.description);
  }

  /** A term found at some offset of the lower-cased name makes the card pass the search. */
  lemma SearchFindsName(search: string, c: CardJson, k: nat)
    requires k + |search| <= |c.name| && Text.Lower(c.name)[k..k + |search|] == Text.Lower(search)
    ensures SearchHit(search, c)
  {
    Text.IncludesAt(Text.Lower(c.name), Text.Lower(search), k);
  }

  // ---------------------------------------------------------------- sorting

  /** The value compared: the timestamp as is, names and rarities lower-cased. */
  function Key(c: CardJson, field: SortKey): string
  {
    match field
    case ObtainedAt => c.obtainedAt
    case Name => Text.Lower(c.name)
    case RarityKey => Text.Lower(c.rarity)
  }

  /** Names and rarities are compared case-insensitively: the key is already lower case, and cards differing only in case share it. */
  lemma KeyIgnoresCase(c: CardJson, field: SortKey)
    ensures field != ObtainedAt ==> Text.Lower(Key(c, field)) == Key(c, field)
    ensures Key(c.(name := Text.Lower(c.name), rarity := Text.Lower(c.rarity)), field) == Key(c, field)
    ensures field == ObtainedAt ==> Key(c, field) == c.obtainedAt
  {
    Text.LowerIdempotent(c.name);
    Text.LowerIdempotent(c.rarity);
  }

  /** The comparator is negative: a sorts strictly before b. */
  predicate Before(a: CardJson, b: CardJson, field: SortKey, descending: bool)
  {
    if descending then Text.LexLess(Key(b, field), Key(a, field)) else Text.LexLess(Key(a, field), Key(b, field))
  }

  predicate Sorted(s: seq<CardJson>, field: SortKey, descending: bool)
  {
    forall i, j :: 0 <= i < j < |s| ==> !Before(s[j], s[i], field, descending)
  }

  lemma BeforeTransitive(a: CardJson, b: CardJson, c: CardJson, field: SortKey, descending: bool)
    requires Before(a, b, field, descending) && Before(b, c, field, descending)
    ensures Before(a, c, field, descending)
  {
    if descending {
      Text.LexLessTransitive(Key(c, field), Key(b, field), Key(a, field));
    } else {
      Text.LexLessTransitive(Key(a, field), Key(b, field), Key(c, field));
    }
  }

  lemma BeforeAsymmetric(a: CardJson, b: CardJson, field: SortKey, descending: bool)
    ensures !(Before(a, b, field, descending) && Before(b, a, field, descending))
  {
    Text.LexLessAsymmetric(Key(a, field), Key(b, field));
  }

  /** Cards with equal keys never sort apart, and of two cards with different keys one sorts before the other. */
  lemma BeforeStrictTotal(a: CardJson, b: CardJson, field: SortKey, descending: bool)
    ensures Before(a, b, field, descending) ==> Key(a, field) != Key(b, field)
    ensures Key(a, field) != Key(b, field) ==> Before(a, b, field, descending) || Before(b, a, field, descending)
  {
    Text.LexLessIrreflexive(Key(a, field));
    if Key(a, field) != Key(b, field) {
      Text.LexLessTotal(Key(a, field), Key(b, field));
    }
  }

  /** Insert x after every element it does not sort strictly before. */
  function Insert(x: CardJson, s: seq<CardJson>, field: SortKey, descending: bool): (r: seq<CardJson>)
    ensures multiset(r) == multiset(s) + multiset{x}
    decreases |s|
  {
    if s == [] then [x]
    else if Before(x, s[0], field, descending) then [x] + s
    else
      assert s == [s[0]] + s[1..];
      [s[0]] + Insert(x, s[1..], field, descending)
  }

  /** applySorting: a stable sort by the comparator. */
  function SortCards(s: seq<CardJson>, field: SortKey, descending: bool): (r: seq<CardJson>)
    ensures multiset(r) == multiset(s)
    ensures |r| == |s|
    decreases |s|
  {
    if s == [] then []
    else
      var front := s[..|s| - 1];
      var last := s[|s| - 1];
      assert s == front + [last];
      assert multiset(s) == multiset(front) + multiset{last};
      Insert(last, SortCards(front, field, descending), field, descending)
  }

  lemma {:induction false} InsertSorted(x: CardJson, s: seq<CardJson>, field: SortKey, descending: bool)
    requires Sorted(s, field, descending)
    ensures Sorted(Insert(x, s, field, descending), field, descending)
    decreases |s|
  {
    if s == [] {
    } else if Before(x, s[0], field, descending) {
      var r := [x] + s;
      forall i, j | 0 <= i < j < |r|
        ensures !Before(r[j], r[i], field, descending)
      {
        if i == 0 {
          if Before(r[j], x, field, descending) {
            if j == 1 {
              BeforeAsymmetric(x, s[0], field, descending);
            } else {
              BeforeTransitive(r[j], x, s[0], field, descending);
            }
          }
        }
      }
    } else {
      var rest := Insert(x, s[1..], field, descending);
      InsertSorted(x, s[1..], field, descending);
      var r := [s[0]] + rest;
      forall i, j | 0 <= i < j < |r|
        ensures !Before(r[j], r[i], field, descending)
      {
        if i == 0 {
          var y := r[j];
          assert y in multiset(rest);
          assert y in multiset(s[1..]) || y == x;
          if y != x {
            var k :| 0 <= k < |s[1..]| && s[1..][k] == y;
            assert s[k + 1] == y;
          }
        }
      }
    }
  }

  /** The sorted list is ordered by the comparator. */
  lemma {:induction false} SortCardsSorted(s: seq<CardJson>, field: SortKey, descending: bool)
    ensures Sorted(SortCards(s, field, descending), field, descending)
    decreases |s|
  {
    if s != [] {
      SortCardsSorted(s[..|s| - 1], field, descending);
      InsertSorted(s[|s| - 1], SortCards(s[..|s| - 1], field, descending), field, descending);
    }
  }

  /** An element that sorts strictly before none of a sorted list goes at its end. */
  lemma {:induction false} InsertLast(x: CardJson, s: seq<CardJson>, field: SortKey, descending: bool)
    requires forall i :: 0 <= i < |s| ==> !Before(x, s[i], field, descending)
    ensures Insert(x, s, field, descending) == s + [x]
    decreases |s|
  {
    if s != [] {
      InsertLast(x, s[1..], field, descending);
      assert [s[0]] + (s[1..] + [x]) == s + [x];
    }
  }

  /** Sorting a sorted list changes nothing, so sorting twice is sorting once. */
  lemma {:induction false} SortSortedIsIdentity(s: seq<CardJson>, field: SortKey, descending: bool)
    requires Sorted(s, field, descending)
    ensures SortCards(s, field, descending) == s
    decreases |s|
  {
    if s != [] {
      var front, last := s[..|s| - 1], s[|s| - 1];
      SortedSplit(s, field, descending);
      SortSortedIsIdentity(front, field, descending);
      InsertLast(last, front, field, descending);
      assert front + [last] == s;
    }
  }

  /** A sorted list without its last card is sorted, and that card sorts before none of the others. */
  lemma SortedSplit(s: seq<CardJson>, field: SortKey, descending: bool)
    requires s != [] && Sorted(s, field, descending)
    ensures Sorted(s[..|s| - 1], field, descending)
    ensures forall i :: 0 <= i < |s| - 1 ==> !Before(s[|s| - 1], s[i], field, descending)
  {
    var front := s[..|s| - 1];
    forall i, j | 0 <= i < j < |front|
      ensures !Before(front[j], front[i], field, descending)
    {
      assert front[i] == s[i] && front[j] == s[j];
    }
  }

  /** The cards whose sort key is k. */
  function HasKey(field: SortKey, k: string): CardJson -> bool
  {
    (c: CardJson) => Key(c, field) == k
  }

  /** A card that sorts strictly before the head of a sorted list shares its key with no card of the list. */
  lemma KeyNotInTail(x: CardJson, t: seq<CardJson>, field: SortKey, descending: bool)
    requires Sorted(t, field, descending)
    requires t != [] && Before(x, t[0], field, descending)
    ensures forall i :: 0 <= i < |t| ==> Key(t[i], field) != Key(x, field)
  {
    forall i | 0 <= i < |t|
      ensures Key(t[i], field) != Key(x, field)
    {
      if i == 0 {
        BeforeAsymmetric(x, t[0], field, descending);
      } else {
        assert !Before(t[i], t[0], field, descending);
      }
    }
  }

  /** Inserting into a sorted list puts x after every card with the same key, keeping their order. */
  lemma {:induction false} InsertStable(x: CardJson, t: seq<CardJson>, field: SortKey, descending: bool, k: string)
    requires Sorted(t, field, descending)
    ensures Seqs.Filter(Insert(x, t, field, descending), HasKey(field, k))
            == Seqs.Filter(t, HasKey(field, k)) + (if Key(x, field) == k then [x] else [])
    decreases |t|
  {
    if t == [] {
      Seqs.FilterSnoc([], x, HasKey(field, k));
    } else if Before(x, t[0], field, descending) {
      InsertFrontStable(x, t, field, descending, k);
    } else {
      SortedTail(t, field, descending);
      InsertStable(x, t[1..], field, descending, k);
      InsertPastHeadStable(t, Insert(x, t[1..], field, descending), HasKey(field, k),
                           if Key(x, field) == k then [x] else []);
    }
  }

  /** Insert's first case: x goes in front, and no card of the list shares its key. */
  lemma InsertFrontStable(x: CardJson, t: seq<CardJson>, field: SortKey, descending: bool, k: string)
    requires Sorted(t, field, descending)
    requires t != [] && Before(x, t[0], field, descending)
    ensures Seqs.Filter([x] + t, HasKey(field, k))
            == Seqs.Filter(t, HasKey(field, k)) + (if Key(x, field) == k then [x] else [])
  {
    var hk := HasKey(field, k);
    Seqs.FilterCons(x, t, hk);
    if Key(x, field) == k {
      KeyNotInTail(x, t, field, descending);
      assert forall i :: 0 <= i < |t| ==> !hk(t[i]);
      Seqs.FilterNone(t, hk);
    }
  }

  lemma SortedTail(t: seq<CardJson>, field: SortKey, descending: bool)
    requires t != [] && Sorted(t, field, descending)
    ensures Sorted(t[1..], field, descending)
  {
    forall i, j | 0 <= i < j < |t| - 1
      ensures !Before(t[1..][j], t[1..][i], field, descending)
    {
      assert t[1..][j] == t[j + 1] && t[1..][i] == t[i + 1];
    }
  }

  /** Insert's second case: the head stays in front of the insertion into the rest. */
  lemma InsertPastHeadStable(t: seq<CardJson>, u: seq<CardJson>, hk: CardJson -> bool, extra: seq<CardJson>)
    requires t != []
    requires Seqs.Filter(u, hk) == Seqs.Filter(t[1..], hk) + extra
    ensures Seqs.Filter([t[0]] + u, hk) == Seqs.Filter(t, hk) + extra
  {
    assert t == [t[0]] + t[1..];
    Seqs.FilterConsBoth(t[0], u, t[1..], hk, extra);
  }

  /** The sort is stable: the cards sharing a key come out in the order they went in. */
  lemma {:induction false} SortStable(s: seq<CardJson>, field: SortKey, descending: bool, k: string)
    ensures Seqs.Filter(SortCards(s, field, descending), HasKey(field, k)) == Seqs.Filter(s, HasKey(field, k))
    decreases |s|
  {
    if s != [] {
      var front := s[..|s| - 1];
      var last := s[|s| - 1];
      assert s == front + [last];
      SortStable(front, field, descending, k);
      SortCardsSorted(front, field, descending);
      InsertStable(last, SortCards(front, field, descending), field, descending, k);
      Seqs.FilterSnoc(front, last, HasKey(field, k));
    }
  }

  lemma SortIdempotent(s: seq<CardJson>, field: SortKey, descending: bool)
    ensures SortCards(SortCards(s, field, descending), field, descending) == SortCards(s, field, descending)
  {
    SortCardsSorted(s, field, descending);
    SortSortedIsIdentity(SortCards(s, field, descending), field, descending);
  }

  /** A missing date ('') sorts as the earliest one. */
  lemma MissingDateEarliest(a: CardJson, b: CardJson)
    requires a.obtainedAt == "" && b.obtainedAt != ""
    ensures Before(a, b, ObtainedAt, false) && Before(b, a, ObtainedAt, true)
  {
  }

  // ------------------------------------------------------------------ page

  /** The page state. */
  class CardsView {
    var cards: seq<CardJson>
    var filteredCards: seq<CardJson>
    var filters: Filters
    var sortBy: SortKey
    var descending: bool
    var stats: Option<CardService.Stats>

    constructor ()
      ensures cards == [] && filteredCards == [] && filters == DefaultFilters
      ensures sortBy == ObtainedAt && descending && stats.None?
    {
      cards := [];
      filteredCards := [];
      filters := DefaultFilters;
      sortBy := ObtainedAt;
      descending := true;
      stats := None;
    }

    /** applyFilters, which ends by sorting. */
    method ApplyFilters()
      modifies this
      ensures filteredCards == SortCards(FilteredView(cards, filters), sortBy, descending)
      ensures cards == old(cards) && filters == old(filters) && sortBy == old(sortBy)
      ensures descending == old(descending) && stats == old(stats)
    {
      filteredCards := FilteredView(cards, filters);
      ApplySorting();
    }

    /** applySorting. */
    method ApplySorting()
      modifies this
      ensures filteredCards == SortCards(old(filteredCards), sortBy, descending)
      ensures cards == old(cards) && filters == old(filters) && sortBy == old(sortBy)
      ensures descending == old(descending) && stats == old(stats)
    {
      filteredCards := SortCards(filteredCards, sortBy, descending);
    }

    /** updateFilter: replaces one filter and reapplies them. */
    method UpdateFilter(kind: FilterKind, value: string)
      modifies this
      ensures filters == (match kind
                          case Search => old(filters).(search := value)
                          case Rarity => old(filters).(rarity := value)
                          case Status => old(filters).(status := value))
      ensures filteredCards == SortCards(FilteredView(cards, filters), sortBy, descending)
      ensures cards == old(cards) && sortBy == old(sortBy) && descending == old(descending) && stats == old(stats)
    {
      match kind {
        case Search => filters := filters.(search := value);
        case Rarity => filters := filters.(rarity := value);
        case Status => filters := filters.(status := value);
      }
      ApplyFilters();
    }

    /** The sort-field selector: sets the field and re-sorts the shown list. */
    method SetSortBy(field: SortKey)
      modifies this
      ensures sortBy == field
      ensures filteredCards == SortCards(old(filteredCards), field, descending)
      ensures cards == old(cards) && filters == old(filters) && descending == old(descending) && stats == old(stats)
    {
      sortBy := field;
      ApplySorting();
    }

    /** The order button: flips ascending and descending and re-sorts the shown list. */
    method ToggleSortOrder()
      modifies this
      ensures descending == !old(descending)
      ensures filteredCards == SortCards(old(filteredCards), sortBy, descending)
      ensures cards == old(cards) && filters == old(filters) && sortBy == old(sortBy) && stats == old(stats)
    {
      descending := !descending;
      ApplySorting();
    }

    /** clearFilters: every card is shown again, sorted. */
    method ClearFilters()
      modifies this
      ensures filters == ClearedFilters
      ensures filteredCards == SortCards(cards, sortBy, descending)
      ensures cards == old(cards) && sortBy == old(sortBy) && descending == old(descending) && stats == old(stats)
    {
      filters := ClearedFilters;
      ApplyFilters();
      ClearedShowsAll(cards);
    }

    /** loadCards: reads the collection and its statistics, then filters. */
    method LoadCards(ledger: CardService.CardLedger)
      modifies this
      ensures cards == ledger.cards
      ensures stats == Some(CardService.StatsOf(ledger.cards, ledger.usedCount))
      ensures filteredCards == SortCards(FilteredView(cards, filters), sortBy, descending)
      ensures filters == old(filters) && sortBy == old(sortBy) && descending == old(descending)
    {
      cards := ledger.cards;
      var s := ledger.GetCardStats();
      stats := Some(s);
      ApplyFilters();
    }
  }
}

/**
 * Roulettes: the persisted list (key `roulettes`), the session cache of the
 * configurations loaded for play, and the weighted spin. The draw
 * Math.random() is the parameter `u` in [0, 1); the configuration fetch is an
 * input (the parsed array, or None when the fetch or its shape fails).
 */
module RouletteService {
  import opened Wrappers
  import opened Models
  import Seqs
  import CardService

  // ------------------------------------------------------------ weighted pick

  /** w₀ + … + wₙ₋₁. */
  function Prefix(ws: seq<nat>, n: nat): nat
    requires n <= |ws|
  {
    if n == 0 then 0 else Prefix(ws, n - 1) + ws[n - 1]
  }

  /** The reduce of spinRoulette: the total weight. */
  function Sum(ws: seq<nat>): nat
  {
    Prefix(ws, |ws|)
  }

  /** Prefix sums never decrease. */
  lemma {:induction false} PrefixMonotone(ws: seq<nat>, m: nat, n: nat)
    requires m <= n <= |ws|
    ensures Prefix(ws, m) <= Prefix(ws, n)
    decreases n - m
  {
    if m < n {
      PrefixMonotone(ws, m, n - 1);
    }
  }

  /** The walk from index i on, knowing the draw exceeds every earlier prefix sum. */
  function PickFrom(ws: seq<nat>, r: real, i: nat): (k: nat)
    requires i < |ws|
    requires forall j :: 1 <= j <= i ==> (Prefix(ws, j) as real) < r
    ensures i <= k < |ws|
    ensures forall j :: 1 <= j <= k ==> (Prefix(ws, j) as real) < r
    ensures r <= Prefix(ws, k + 1) as real || (k == |ws| - 1 && (Sum(ws) as real) < r)
    decreases |ws| - i
  {
    if r <= Prefix(ws, i + 1) as real || i == |ws| - 1 then i
    else PickFrom(ws, r, i + 1)
  }

  /**
   * The selected index for draw r: the first i with r ≤ w₀ + … + wᵢ, or the
   * last index when r exceeds the total.
   */
  function Pick(ws: seq<nat>, r: real): (k: nat)
    requires |ws| > 0
    ensures k < |ws|
    ensures forall j :: 1 <= j <= k ==> (Prefix(ws, j) as real) < r
    ensures r <= Prefix(ws, k + 1) as real || (k == |ws| - 1 && (Sum(ws) as real) < r)
  {
    PickFrom(ws, r, 0)
  }

  /** For a draw in (0, total], index k is selected exactly when the draw lies in k's slice of the total. */
  lemma PickInterval(ws: seq<nat>, r: real, k: nat)
    requires |ws| > 0 && k < |ws|
    requires 0.0 < r <= Sum(ws) as real
    ensures Pick(ws, r) == k <==> (Prefix(ws, k) as real) < r <= Prefix(ws, k + 1) as real
  {
    var m := Pick(ws, r);
    if m == k {
    } else if (Prefix(ws, k) as real) < r <= Prefix(ws, k + 1) as real {
      if m < k {
        PrefixMonotone(ws, m + 1, k);
      }
    }
  }

  /** For a draw in (0, total], the selected segment has positive weight and the fallback is not taken. */
  lemma PickPositive(ws: seq<nat>, r: real)
    requires |ws| > 0
    requires 0.0 < r <= Sum(ws) as real
    ensures ws[Pick(ws, r)] > 0
    ensures r <= Prefix(ws, Pick(ws, r) + 1) as real
  {
    PickInterval(ws, r, Pick(ws, r));
  }

  /** A zero draw selects the first segment, whatever the weights. */
  lemma PickZero(ws: seq<nat>)
    requires |ws| > 0
    ensures Pick(ws, 0.0) == 0
  {
  }

  /** The loop of spinRoulette: subtract each weight from the draw and stop once it is ≤ 0. */
  method SelectSegment(ws: seq<nat>, r: real) returns (k: nat)
    requires |ws| > 0
    ensures k == Pick(ws, r)
  {
    var random := r;
    var i := 0;
    while i < |ws|
      invariant 0 <= i <= |ws|
      invariant random == r - Prefix(ws, i) as real
      invariant forall j :: 1 <= j <= i ==> (Prefix(ws, j) as real) < r
      invariant i < |ws| ==> Pick(ws, r) == PickFrom(ws, r, i)
      invariant i == |ws| ==> Pick(ws, r) == |ws| - 1
    {
      random := random - ws[i] as real;
      if random <= 0.0 {
        return i;
      }
      i := i + 1;
    }
    k := |ws| - 1;
  }

  // ------------------------------------------------------------------- spin

  /** The spin result object. */
  datatype SpinResult = SpinResult(
    rouletteId: string,
    rouletteName: string,
    segment: Segment,
    timestamp: string,
    card: Option<CardData>,
    coins: Option<string>)

  function WeightOf(s: Segment): nat
  {
    s.weight
  }

  function Weights(segments: seq<Segment>): (ws: seq<nat>)
    ensures |ws| == |segments|
    ensures forall i :: 0 <= i < |ws| ==> ws[i] == segments[i].weight
  {
    Seqs.Map(segments, WeightOf)
  }

  function RouletteHasId(id: string): RouletteJson -> bool
  {
    (r: RouletteJson) => r.id == id
  }

  /** getRouletteById over a list: the first roulette with the id. */
  function FindRoulette(rs: seq<RouletteJson>, id: string): (r: Option<RouletteJson>)
    ensures r.Some? <==> exists i :: 0 <= i < |rs| && rs[i].id == id
    ensures r.Some? ==> r.value.id == id && r.value in rs
    ensures r.Some? ==> exists k :: 0 <= k < |rs| && rs[k] == r.value && forall j :: 0 <= j < k ==> rs[j].id != id
  {
    var k := Seqs.FirstIndex(rs, RouletteHasId(id));
    if k.Some? then Some(rs[k.value]) else None
  }

  /** The card a segment hands out: its card stamped with the roulette's id and the spin time. */
  function StampedCard(s: Segment, rouletteId: string, now: string): (c: Option<CardData>)
    ensures c.None? <==> s.card.None?
    ensures c.Some? ==> c.value.obtainedFrom == Some(rouletteId) && c.value.obtainedAt == Some(now)
    ensures c.Some? ==> c.value.(obtainedFrom := s.card.value.obtainedFrom, obtainedAt := s.card.value.obtainedAt) == s.card.value
  {
    if s.card.Some? then Some(s.card.value.(obtainedFrom := Some(rouletteId), obtainedAt := Some(now))) else None
  }

  /** The draw Math.random() * totalWeight for u ∈ [0, 1). */
  function Draw(segments: seq<Segment>, u: real): (r: real)
    ensures u == 0.0 ==> r == 0.0
    ensures 0.0 <= u ==> 0.0 <= r
    ensures 0.0 <= u < 1.0 && Sum(Weights(segments)) > 0 ==> r < Sum(Weights(segments)) as real
  {
    var t := Sum(Weights(segments)) as real;
    assert 0.0 <= u < 1.0 && t > 0.0 ==> u * t < 1.0 * t;
    u * t
  }

  /** A draw u ∈ (0, 1) scales a positive total into (0, total). */
  lemma DrawInRange(segments: seq<Segment>, u: real)
    requires 0.0 < u < 1.0 && Sum(Weights(segments)) > 0
    ensures 0.0 < Draw(segments, u) < Sum(Weights(segments)) as real
  {
    var t := Sum(Weights(segments)) as real;
    assert u * t < 1.0 * t;
  }

  /** The result of spinning roulette `ro` (active, with segments) with draw u at time now. */
  function Outcome(ro: RouletteJson, u: real, now: string): (res: SpinResult)
    requires |ro.segments| > 0
    ensures res.rouletteId == ro.id && res.rouletteName == ro.name && res.timestamp == now
    ensures res.segment == ro.segments[Pick(Weights(ro.segments), Draw(ro.segments, u))]
    ensures res.card == StampedCard(res.segment, ro.id, now)
    ensures res.coins == (if Truthy(res.segment.coins) then res.segment.coins else None)
  {
    var seg := ro.segments[Pick(Weights(ro.segments), Draw(ro.segments, u))];
    SpinResult(ro.id, ro.name, seg, now, StampedCard(seg, ro.id, now), if Truthy(seg.coins) then seg.coins else None)
  }

  /** spinRoulette over the session cache, for draw u ∈ [0, 1) and timestamp now. */
  function Spin(session: seq<RouletteJson>, id: string, u: real, now: string): (res: Option<SpinResult>)
    requires 0.0 <= u < 1.0
    ensures res.None? <==> (FindRoulette(session, id).None?
                            || !FindRoulette(session, id).value.active
                            || |FindRoulette(session, id).value.segments| == 0)
    ensures res.Some? ==> res.value == Outcome(FindRoulette(session, id).value, u, now)
  {
    var found := FindRoulette(session, id);
    if found.None? || !found.value.active || |found.value.segments| == 0 then None
    else Some(Outcome(found.value, u, now))
  }

  /** For a draw u > 0 on a roulette with positive total weight, a zero-weight segment is never the result. */
  lemma SpinAvoidsZeroWeight(session: seq<RouletteJson>, id: string, u: real, now: string)
    requires 0.0 < u < 1.0
    requires Spin(session, id, u, now).Some?
    requires Sum(Weights(FindRoulette(session, id).value.segments)) > 0
    ensures Spin(session, id, u, now).value.segment.weight > 0
  {
    var segs := FindRoulette(session, id).value.segments;
    DrawInRange(segs, u);
    PickPositive(Weights(segs), Draw(segs, u));
  }

  /** When every weight is zero the spin still succeeds, with the first segment. */
  lemma SpinAllZeroPicksFirst(session: seq<RouletteJson>, id: string, u: real, now: string)
    requires 0.0 <= u < 1.0
    requires Spin(session, id, u, now).Some?
    requires Sum(Weights(FindRoulette(session, id).value.segments)) == 0
    ensures Spin(session, id, u, now).value.segment == FindRoulette(session, id).value.segments[0]
  {
    var segs := FindRoulette(session, id).value.segments;
    assert Draw(segs, u) == 0.0;
    PickZero(Weights(segs));
  }

  // ------------------------------------------------------ card references

  /** One segment of resolveCardReferences: a card id without a card takes the catalog's definition when there is one. */
  function ResolvedSegment(s: Segment, catalog: map<string, CardData>): Segment
  {
    if Truthy(s.cardId) && s.card.None? && s.cardId.value in catalog then s.(card := Some(catalog[s.cardId.value]))
    else s
  }

  function Resolver(catalog: map<string, CardData>): Segment -> Segment
  {
    (s: Segment) => ResolvedSegment(s, catalog)
  }

  function ResolveAll(segments: seq<Segment>, catalog: map<string, CardData>): seq<Segment>
  {
    Seqs.Map(segments, Resolver(catalog))
  }

  /**
   * Resolution keeps the count and order of the segments and changes only
   * the card of a segment that has a card id, no card, and a definition.
   */
  lemma ResolveSpec(segments: seq<Segment>, catalog: map<string, CardData>)
    ensures |ResolveAll(segments, catalog)| == |segments|
    ensures forall i :: 0 <= i < |segments| ==>
              ResolveAll(segments, catalog)[i].(card := segments[i].card) == segments[i]
    ensures forall i :: 0 <= i < |segments| ==>
              (ResolveAll(segments, catalog)[i].card != segments[i].card <==>
                 Truthy(segments[i].cardId) && segments[i].card.None? && segments[i].cardId.value in catalog)
  {
  }

  /** Resolving twice is resolving once. */
  lemma ResolveIdempotent(segments: seq<Segment>, catalog: map<string, CardData>)
    ensures ResolveAll(ResolveAll(segments, catalog), catalog) == ResolveAll(segments, catalog)
  {
    var once := ResolveAll(segments, catalog);
    assert forall i :: 0 <= i < |once| ==> ResolvedSegment(once[i], catalog) == once[i];
  }

  /** resolveCardReferences: a loop that pushes each (possibly resolved) segment. */
  method ResolveCardReferences(ledger: CardService.CardLedger, segments: seq<Segment>, fetch: Option<map<string, CardData>>)
    returns (resolved: seq<Segment>)
    modifies ledger
    ensures resolved == ResolveAll(segments, CardService.LoadedCatalog(old(ledger.catalog), fetch))
    ensures CardService.LoadedCatalog(ledger.catalog, fetch) == CardService.LoadedCatalog(old(ledger.catalog), fetch)
    ensures ledger.catalog == old(ledger.catalog) || ledger.catalog == Some(CardService.LoadedCatalog(old(ledger.catalog), fetch))
    ensures ledger.cards == old(ledger.cards) && ledger.unlocked == old(ledger.unlocked)
    ensures ledger.usedCount == old(ledger.usedCount) && ledger.history == old(ledger.history)
  {
    ghost var catalog := CardService.LoadedCatalog(ledger.catalog, fetch);
    resolved := [];
    var i := 0;
    while i < |segments|
      invariant 0 <= i <= |segments|
      invariant resolved == ResolveAll(segments[..i], catalog)
      invariant CardService.LoadedCatalog(ledger.catalog, fetch) == catalog
      invariant ledger.catalog == old(ledger.catalog) || ledger.catalog == Some(catalog)
      invariant ledger.cards == old(ledger.cards) && ledger.unlocked == old(ledger.unlocked)
      invariant ledger.usedCount == old(ledger.usedCount) && ledger.history == old(ledger.history)
    {
      var s := segments[i];
      var r := s;
      if Truthy(s.cardId) && s.card.None? {
        var d := ledger.GetCardDefinition(s.cardId.value, fetch);
        if d.Some? {
          r := s.(card := d);
        }
      }
      assert r == Resolver(catalog)(s);
      assert segments[..i + 1] == segments[..i] + [s];
      Seqs.MapSnoc(segments[..i], s, Resolver(catalog));
      resolved := resolved + [r];
      i := i + 1;
    }
    assert segments[..i] == segments;
  }

  // ------------------------------------------------------ loading roulettes

  /** The roulette data with its segments (when it has any) resolved. */
  function ResolvedRoulette(d: RouletteData, catalog: map<string, CardData>): RouletteData
  {
    if d.segments.Some? then d.(segments := Some(ResolveAll(d.segments.value, catalog))) else d
  }

  /** RouletteConfig.fromJSON over a list, the i-th roulette taking the i-th fresh id. */
  function BuildAll(ds: seq<RouletteData>, ids: seq<string>, now: string): (rs: seq<RouletteJson>)
    requires |ids| >= |ds| && now != ""
    requires forall i :: 0 <= i < |ds| ==> ids[i] != ""
    ensures |rs| == |ds|
    ensures forall i :: 0 <= i < |ds| ==> rs[i] == BuildRoulette(ds[i], ids[i], now)
  {
    seq(|ds|, i requires 0 <= i < |ds| => BuildRoulette(ds[i], ids[i], now))
  }

  predicate IsActive(r: RouletteJson)
  {
    r.active
  }

  /** The roulette patch of updateRoulette. */
  datatype RoulettePatch = RoulettePatch(
    id: Option<string>,
    name: Option<string>,
    description: Option<string>,
    segments: Option<seq<Segment>>,
    createdAt: Option<string>,
    active: Option<bool>)

  function PatchedRoulette(r: RouletteJson, p: RoulettePatch): RouletteJson
  {
    RouletteJson(
      if p.id.Some? then p.id.value else r.id,
      if p.name.Some? then p.name.value else r.name,
      if p.description.Some? then p.description.value else r.description,
      if p.segments.Some? then p.segments.value else r.segments,
      if p.createdAt.Some? then p.createdAt.value else r.createdAt,
      if p.active.Some? then p.active.value else r.active)
  }

  /** A roulette list without the roulettes of one id. */
  function WithoutRoulette(rs: seq<RouletteJson>, id: string): seq<RouletteJson>
  {
    Seqs.Filter(rs, (r: RouletteJson) => r.id != id)
  }

  /** removeRoulette reports a removal exactly when a roulette had the id, and none has it afterwards. */
  lemma {:induction false} RemoveRouletteSpec(rs: seq<RouletteJson>, id: string)
    ensures |WithoutRoulette(rs, id)| != |rs| <==> exists i :: 0 <= i < |rs| && rs[i].id == id
    ensures forall i :: 0 <= i < |WithoutRoulette(rs, id)| ==> WithoutRoulette(rs, id)[i].id != id
    ensures Seqs.Subseq(WithoutRoulette(rs, id), rs)
  {
    var p := (r: RouletteJson) => r.id != id;
    Seqs.FilterKeepsAll(rs, p);
    if exists i :: 0 <= i < |rs| && rs[i].id == id {
      var i :| 0 <= i < |rs| && rs[i].id == id;
      assert !p(rs[i]);
    }
  }

  /** The roulette service state. */
  class Roulettes {
    /** The persisted roulettes (key `roulettes`). */
    var persisted: seq<RouletteJson>
    /** The session cache (module variable `currentRoulettes`). */
    var session: seq<RouletteJson>

    constructor (persisted0: seq<RouletteJson>)
      ensures persisted == persisted0 && session == []
    {
      persisted := persisted0;
      session := [];
    }

    /** getRouletteById: looks in the session cache only. */
    function GetRouletteById(id: string): (r: Option<RouletteJson>)
      reads this
      ensures r.Some? <==> exists i :: 0 <= i < |session| && session[i].id == id
      ensures r.Some? ==> r.value.id == id && r.value in session
      ensures r.Some? ==> exists k :: 0 <= k < |session| && session[k] == r.value
                                      && forall j :: 0 <= j < k ==> session[j].id != id
    {
      FindRoulette(session, id)
    }

    /** spinRoulette: reads the session cache and writes nothing. */
    method SpinRoulette(id: string, u: real, now: string) returns (res: Option<SpinResult>)
      requires 0.0 <= u < 1.0
      ensures res == Spin(session, id, u, now)
    {
      var found := FindRoulette(session, id);
      if found.None? || !found.value.active || |found.value.segments| == 0 {
        return None;
      }
      var ro := found.value;
      var k := SelectSegment(Weights(ro.segments), Draw(ro.segments, u));
      var seg := ro.segments[k];
      var card := None;
      if seg.card.Some? {
        card := Some(seg.card.value.(obtainedFrom := Some(ro.id), obtainedAt := Some(now)));
      }
      var coins := None;
      if Truthy(seg.coins) {
        coins := seg.coins;
      }
      res := Some(SpinResult(ro.id, ro.name, seg, now, card, coins));
    }

    /** addRoulette: appends the constructed roulette to the persisted list. */
    method AddRoulette(data: RouletteData, freshId: string, now: string) returns (r: RouletteJson)
      requires freshId != "" && now != ""
      modifies this
      ensures r == BuildRoulette(data, freshId, now)
      ensures persisted == old(persisted) + [r] && session == old(session)
    {
      r := BuildRoulette(data, freshId, now);
      persisted := persisted + [r];
    }

    /** updateRoulette: patches the first persisted roulette with the id; null when there is none. */
    method UpdateRoulette(id: string, patch: RoulettePatch) returns (r: Option<RouletteJson>)
      modifies this
      ensures var k := Seqs.FirstIndex(old(persisted), RouletteHasId(id));
              && (k.None? ==> r.None? && persisted == old(persisted))
              && (k.Some? ==> r == Some(PatchedRoulette(old(persisted)[k.value], patch))
                              && persisted == old(persisted)[k.value := r.value])
      ensures session == old(session)
    {
      var k := Seqs.FirstIndex(persisted, RouletteHasId(id));
      if k.None? {
        return None;
      }
      var p := PatchedRoulette(persisted[k.value], patch);
      persisted := persisted[k.value := p];
      r := Some(p);
    }

    /** removeRoulette: true exactly when a persisted roulette had the id. */
    method RemoveRoulette(id: string) returns (removed: bool)
      modifies this
      ensures removed <==> exists i :: 0 <= i < |old(persisted)| && old(persisted)[i].id == id
      ensures persisted == (if removed then WithoutRoulette(old(persisted), id) else old(persisted))
      ensures forall i :: 0 <= i < |persisted| ==> persisted[i].id != id
      ensures session == old(session)
    {
      var filtered := WithoutRoulette(persisted, id);
      RemoveRouletteSpec(persisted, id);
      if |filtered| != |persisted| {
        persisted := filtered;
        return true;
      }
      return false;
    }

    /** clearAllRoulettes. */
    method ClearAllRoulettes() returns (ok: bool)
      modifies this
      ensures ok && persisted == [] && session == old(session)
    {
      persisted := [];
      ok := true;
    }

    /** loadRoulettesFromConfig, reduced to its effect on the list: clear, then add each configured roulette. */
    method LoadRoulettesFromConfig(fetched: Option<seq<RouletteData>>, ids: seq<string>, now: string) returns (ok: bool)
      requires now != ""
      requires fetched.Some? ==> |ids| >= |fetched.value| && forall i :: 0 <= i < |fetched.value| ==> ids[i] != ""
      modifies this
      ensures ok <==> fetched.Some?
      ensures persisted == (if ok then BuildAll(fetched.value, ids, now) else old(persisted))
      ensures session == old(session)
    {
      if fetched.None? {
        return false;
      }
      var ds := fetched.value;
      var _ := ClearAllRoulettes();
      var i := 0;
      while i < |ds|
        invariant 0 <= i <= |ds|
        invariant persisted == BuildAll(ds[..i], ids, now)
        invariant session == old(session)
      {
        var _ := AddRoulette(ds[i], ids[i], now);
        i := i + 1;
      }
      assert ds[..i] == ds;
      ok := true;
    }

    /**
     * getActiveRoulettes: loads every configured roulette (resolving card
     * references) into the session cache, or the sample set on failure, and
     * returns the active ones.
     */
    method GetActiveRoulettes(fetched: Option<seq<RouletteData>>, samples: seq<RouletteData>,
                              ledger: CardService.CardLedger, catalogFetch: Option<map<string, CardData>>,
                              ids: seq<string>, now: string)
      returns (active: seq<RouletteJson>)
      requires now != ""
      requires |ids| >= |samples| && forall i :: 0 <= i < |samples| ==> ids[i] != ""
      requires fetched.Some? ==> |ids| >= |fetched.value| && forall i :: 0 <= i < |fetched.value| ==> ids[i] != ""
      modifies this, ledger
      ensures var catalog := CardService.LoadedCatalog(old(ledger.catalog), catalogFetch);
              session == (if fetched.Some?
                          then BuildAll(Seqs.Map(fetched.value, (d: RouletteData) => ResolvedRoulette(d, catalog)), ids, now)
                          else BuildAll(samples, ids, now))
      ensures active == Seqs.Filter(session, IsActive)
      ensures persisted == old(persisted)
      ensures ledger.cards == old(ledger.cards) && ledger.unlocked == old(ledger.unlocked)
      ensures ledger.usedCount == old(ledger.usedCount) && ledger.history == old(ledger.history)
      ensures ledger.catalog == old(ledger.catalog)
              || ledger.catalog == Some(CardService.LoadedCatalog(old(ledger.catalog), catalogFetch))
    {
      ghost var catalog := CardService.LoadedCatalog(ledger.catalog, catalogFetch);
      if fetched.None? {
        session := BuildAll(samples, ids, now);
      } else {
        var ds := fetched.value;
        var resolvedData: seq<RouletteData> := [];
        var i := 0;
        while i < |ds|
          invariant 0 <= i <= |ds|
          invariant resolvedData == Seqs.Map(ds[..i], (d: RouletteData) => ResolvedRoulette(d, catalog))
          invariant CardService.LoadedCatalog(ledger.catalog, catalogFetch) == catalog
          invariant ledger.catalog == old(ledger.catalog) || ledger.catalog == Some(catalog)
          invariant persisted == old(persisted)
          invariant ledger.cards == old(ledger.cards) && ledger.unlocked == old(ledger.unlocked)
          invariant ledger.usedCount == old(ledger.usedCount) && ledger.history == old(ledger.history)
        {
          var d := ds[i];
          var rd := d;
          if d.segments.Some? {
            var segs := ResolveCardReferences(ledger, d.segments.value, catalogFetch);
            rd := d.(segments := Some(segs));
          }
          assert ds[..i + 1] == ds[..i] + [d];
          Seqs.MapSnoc(ds[..i], d, (d: RouletteData) => ResolvedRoulette(d, catalog));
          resolvedData := resolvedData + [rd];
          i := i + 1;
        }
        assert ds[..i] == ds;
        session := BuildAll(resolvedData, ids, now);
      }
      active := Seqs.Filter(session, IsActive);
    }
  }

  /** The returned roulettes are exactly the active ones of the session cache, in order. */
  lemma ActiveSelection(session: seq<RouletteJson>)
    ensures Seqs.Subseq(Seqs.Filter(session, IsActive), session)
    ensures forall i :: 0 <= i < |Seqs.Filter(session, IsActive)| ==> Seqs.Filter(session, IsActive)[i].active
    ensures forall i :: 0 <= i < |session| && session[i].active ==> session[i] in Seqs.Filter(session, IsActive)
    ensures forall r :: multiset(Seqs.Filter(session, IsActive))[r] == (if r.active then multiset(session)[r] else 0)
  {
    Seqs.FilterMultiplicity(session, IsActive);
  }
}

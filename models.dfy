/**
 * The two model classes: a Card the player owns and a RouletteConfig with its
 * segments. Their constructors fill in defaults for missing or falsy fields;
 * toJSON gives the plain record that is persisted and fromJSON rebuilds from it.
 */
module Models {
  import opened Wrappers
  import Seqs

  const DefaultType: string := "normal"
  const DefaultRarity: string := "common"
  const DefaultColor: string := "#3498db"

  /** A JavaScript string field read with `||`: present and not the empty string. */
  predicate Truthy(o: Option<string>)
  {
    o.Some? && o.value != ""
  }

  /** `o || d` for a string field. */
  function OrElse(o: Option<string>, d: string): string
  {
    if Truthy(o) then o.value else d
  }

  /** `o || null` for a string field. */
  function OrNull(o: Option<string>): Option<string>
  {
    if Truthy(o) then o else None
  }

  /**
   * A plain card object as passed to `new Card(data)`: a catalog definition, a
   * segment's card, a shop entry or a stored record. An absent field is None.
   */
  datatype CardData = CardData(
    id: Option<string>,
    name: Option<string>,
    cardType: Option<string>,
    rarity: Option<string>,
    image: Option<string>,
    description: Option<string>,
    obtainedFrom: Option<string>,
    obtainedAt: Option<string>,
    used: bool,
    usedAt: Option<string>)

  /** The ten fields of a constructed card, exactly what toJSON emits. */
  datatype CardJson = CardJson(
    id: string,
    name: string,
    cardType: string,
    rarity: string,
    image: Option<string>,
    description: string,
    obtainedFrom: Option<string>,
    obtainedAt: string,
    used: bool,
    usedAt: Option<string>)

  /** The fields of a card as the constructor can leave them: no falsy value where a default exists. */
  predicate WellFormed(c: CardJson)
  {
    && c.id != ""
    && c.cardType != ""
    && c.rarity != ""
    && c.obtainedAt != ""
    && c.image != Some("")
    && c.obtainedFrom != Some("")
    && c.usedAt != Some("")
  }

  /**
   * The Card constructor. `freshId` stands for generateId() and `now` for
   * new Date().toISOString(); both are never empty.
   */
  function Build(d: CardData, freshId: string, now: string): (c: CardJson)
    requires freshId != "" && now != ""
    ensures WellFormed(c)
    ensures c.id == (if Truthy(d.id) then d.id.value else freshId)
    ensures c.name == (if Truthy(d.name) then d.name.value else "")
    ensures c.cardType == (if Truthy(d.cardType) then d.cardType.value else DefaultType)
    ensures c.rarity == (if Truthy(d.rarity) then d.rarity.value else DefaultRarity)
    ensures c.image == (if Truthy(d.image) then d.image else None)
    ensures c.description == (if Truthy(d.description) then d.description.value else "")
    ensures c.obtainedFrom == (if Truthy(d.obtainedFrom) then d.obtainedFrom else None)
    ensures c.obtainedAt == (if Truthy(d.obtainedAt) then d.obtainedAt.value else now)
    ensures c.used == d.used
    ensures c.usedAt == (if Truthy(d.usedAt) then d.usedAt else None)
  {
    CardJson(
      OrElse(d.id, freshId),
      OrElse(d.name, ""),
      OrElse(d.cardType, DefaultType),
      OrElse(d.rarity, DefaultRarity),
      OrNull(d.image),
      OrElse(d.description, ""),
      OrNull(d.obtainedFrom),
      OrElse(d.obtainedAt, now),
      d.used,
      OrNull(d.usedAt))
  }

  /** The toJSON record read back as a plain object, as fromJSON receives it. */
  function AsData(c: CardJson): CardData
  {
    CardData(Some(c.id), Some(c.name), Some(c.cardType), Some(c.rarity), c.image,
             Some(c.description), c.obtainedFrom, Some(c.obtainedAt), c.used, c.usedAt)
  }

  /**
   * fromJSON(toJSON()) gives back the same card, whatever fresh id and clock it
   * is given, exactly for the cards the constructor can produce.
   */
  lemma {:induction false} RoundTrip(c: CardJson, freshId: string, now: string)
    requires freshId != "" && now != ""
    ensures Build(AsData(c), freshId, now) == c <==> WellFormed(c)
  {
    var r := Build(AsData(c), freshId, now);
    if !WellFormed(c) {
      assert WellFormed(r);
    }
  }

  /** Every constructed card survives a save and a reload unchanged. */
  lemma BuiltRoundTrip(d: CardData, freshId: string, now: string, freshId': string, now': string)
    requires freshId != "" && now != "" && freshId' != "" && now' != ""
    ensures Build(AsData(Build(d, freshId, now)), freshId', now') == Build(d, freshId, now)
  {
    RoundTrip(Build(d, freshId, now), freshId', now');
  }

  /** use(): marked used at `now`. */
  function Used(c: CardJson, now: string): (r: CardJson)
    ensures r.used && r.usedAt == Some(now)
    ensures r.(used := c.used, usedAt := c.usedAt) == c
  {
    c.(used := true, usedAt := Some(now))
  }

  /** unuse(): not used and no usage time. */
  function Unused(c: CardJson): (r: CardJson)
    ensures !r.used && r.usedAt == None
    ensures r.(used := c.used, usedAt := c.usedAt) == c
  {
    c.(used := false, usedAt := None)
  }

  /** use() then unuse() gives back a card that was unused, and any card's unused form. */
  lemma UseThenUnuse(c: CardJson, now: string)
    ensures Unused(Used(c, now)) == Unused(c)
    ensures !c.used && c.usedAt == None ==> Unused(Used(c, now)) == c
  {
  }

  /** The Card class. Its fields are those of CardJson. */
  class Card {
    var id: string
    var name: string
    var cardType: string
    var rarity: string
    var image: Option<string>
    var description: string
    var obtainedFrom: Option<string>
    var obtainedAt: string
    var used: bool
    var usedAt: Option<string>

    /** new Card(data). */
    constructor (data: CardData, freshId: string, now: string)
      requires freshId != "" && now != ""
      ensures ToJson() == Build(data, freshId, now)
    {
      id := OrElse(data.id, freshId);
      name := OrElse(data.name, "");
      cardType := OrElse(data.cardType, DefaultType);
      rarity := OrElse(data.rarity, DefaultRarity);
      image := OrNull(data.image);
      description := OrElse(data.description, "");
      obtainedFrom := OrNull(data.obtainedFrom);
      obtainedAt := OrElse(data.obtainedAt, now);
      used := data.used;
      usedAt := OrNull(data.usedAt);
    }

    /** Card.fromJSON(data) is `new Card(data)`. */
    static method FromJson(data: CardData, freshId: string, now: string) returns (c: Card)
      requires freshId != "" && now != ""
      ensures fresh(c)
      ensures c.ToJson() == Build(data, freshId, now)
    {
      c := new Card(data, freshId, now);
    }

    /** toJSON(): a plain record of the ten fields, which fromJSON reads back as this card when it is well formed. */
    function ToJson(): (r: CardJson)
      reads this
      ensures r.id == id && r.used == used && r.usedAt == usedAt
      ensures forall freshId, now {:trigger Build(AsData(r), freshId, now)} ::
                freshId != "" && now != "" && WellFormed(r) ==> Build(AsData(r), freshId, now) == r
    {
      CardJson(id, name, cardType, rarity, image, description, obtainedFrom, obtainedAt, used, usedAt)
    }

    method Use(now: string)
      modifies this
      ensures ToJson() == Used(old(ToJson()), now)
    {
      used := true;
      usedAt := Some(now);
    }

    method Unuse()
      modifies this
      ensures ToJson() == Unused(old(ToJson()))
    {
      used := false;
      usedAt := None;
    }
  }

  /**
   * A roulette segment. Segments read from the configuration carry what the
   * file gives (a card inline or by id, a coin tier); addSegment builds the rest.
   * A weight is a non-negative integer.
   */
  datatype Segment = Segment(
    id: Option<string>,
    caption: string,
    value: Option<string>,
    weight: nat,
    color: string,
    card: Option<CardData>,
    cardId: Option<string>,
    coins: Option<string>)

  /** The object passed to addSegment; a weight of 0 stands for a missing or zero weight. */
  datatype SegmentData = SegmentData(
    caption: Option<string>,
    value: Option<string>,
    weight: nat,
    color: Option<string>,
    card: Option<CardData>)

  /** The segment addSegment appends; `segmentId` stands for its generated id. */
  function NewSegment(s: SegmentData, segmentId: string): (r: Segment)
    ensures r.id == Some(segmentId)
    ensures r.weight == (if s.weight == 0 then 1 else s.weight) && r.weight > 0
    ensures r.color == (if Truthy(s.color) then s.color.value else DefaultColor)
    ensures r.card == s.card && r.cardId == None && r.coins == None
    ensures r.caption == OrElse(s.caption, "") && r.value == OrNull(s.value)
  {
    Segment(Some(segmentId), OrElse(s.caption, ""), OrNull(s.value),
            if s.weight == 0 then 1 else s.weight, OrElse(s.color, DefaultColor), s.card, None, None)
  }

  /** removeSegment's filter predicate. */
  function WithoutSegment(segments: seq<Segment>, segmentId: string): (r: seq<Segment>)
    ensures Seqs.Subseq(r, segments)
    ensures forall i :: 0 <= i < |r| ==> r[i].id != Some(segmentId)
    ensures forall i :: 0 <= i < |segments| && segments[i].id != Some(segmentId) ==> segments[i] in r
    ensures forall x :: multiset(r)[x] == (if x.id != Some(segmentId) then multiset(segments)[x] else 0)
  {
    var keep := (s: Segment) => s.id != Some(segmentId);
    Seqs.FilterMultiplicity(segments, keep);
    Seqs.Filter(segments, keep)
  }

  /** The six fields toJSON emits for a roulette. */
  datatype RouletteJson = RouletteJson(
    id: string,
    name: string,
    description: string,
    segments: seq<Segment>,
    createdAt: string,
    active: bool)

  /** The plain object given to `new RouletteConfig(data)`; an absent field is None. */
  datatype RouletteData = RouletteData(
    id: Option<string>,
    name: Option<string>,
    description: Option<string>,
    segments: Option<seq<Segment>>,
    createdAt: Option<string>,
    active: Option<bool>)

  predicate RouletteWellFormed(r: RouletteJson)
  {
    r.id != "" && r.createdAt != ""
  }

  /** The RouletteConfig constructor. */
  function BuildRoulette(d: RouletteData, freshId: string, now: string): (r: RouletteJson)
    requires freshId != "" && now != ""
    ensures RouletteWellFormed(r)
    ensures r.id == (if Truthy(d.id) then d.id.value else freshId)
    ensures r.name == (if Truthy(d.name) then d.name.value else "")
    ensures r.description == (if Truthy(d.description) then d.description.value else "")
    ensures r.createdAt == (if Truthy(d.createdAt) then d.createdAt.value else now)
    ensures r.segments == (if d.segments.Some? then d.segments.value else [])
    ensures r.active == (d.active != Some(false))
  {
    RouletteJson(
      OrElse(d.id, freshId),
      OrElse(d.name, ""),
      OrElse(d.description, ""),
      if d.segments.Some? then d.segments.value else [],
      OrElse(d.createdAt, now),
      if d.active.Some? then d.active.value else true)
  }

  function RouletteAsData(r: RouletteJson): RouletteData
  {
    RouletteData(Some(r.id), Some(r.name), Some(r.description), Some(r.segments), Some(r.createdAt), Some(r.active))
  }

  /** fromJSON(toJSON()) keeps id, name, description, segments, createdAt and active. */
  lemma {:induction false} RouletteRoundTrip(r: RouletteJson, freshId: string, now: string)
    requires freshId != "" && now != ""
    ensures BuildRoulette(RouletteAsData(r), freshId, now) == r <==> RouletteWellFormed(r)
  {
    var b := BuildRoulette(RouletteAsData(r), freshId, now);
    if !RouletteWellFormed(r) {
      assert RouletteWellFormed(b);
    }
  }

  /**
   * A roulette built from data without an id gets the fresh id it is given, so
   * two loads of the same id-less configuration with different fresh ids
   * disagree on the roulette's id.
   */
  lemma IdRegeneratedOnLoad(d: RouletteData, id1: string, id2: string, now: string)
    requires !Truthy(d.id) && id1 != "" && id2 != "" && now != "" && id1 != id2
    ensures BuildRoulette(d, id1, now).id != BuildRoulette(d, id2, now).id
  {
  }

  /** The RouletteConfig class. */
  class RouletteConfig {
    var id: string
    var name: string
    var description: string
    var segments: seq<Segment>
    var createdAt: string
    var active: bool

    constructor (data: RouletteData, freshId: string, now: string)
      requires freshId != "" && now != ""
      ensures ToJson() == BuildRoulette(data, freshId, now)
    {
      id := OrElse(data.id, freshId);
      name := OrElse(data.name, "");
      description := OrElse(data.description, "");
      segments := if data.segments.Some? then data.segments.value else [];
      createdAt := OrElse(data.createdAt, now);
      active := if data.active.Some? then data.active.value else true;
    }

    static method FromJson(data: RouletteData, freshId: string, now: string) returns (r: RouletteConfig)
      requires freshId != "" && now != ""
      ensures fresh(r)
      ensures r.ToJson() == BuildRoulette(data, freshId, now)
    {
      r := new RouletteConfig(data, freshId, now);
    }

    /** toJSON(): a plain record of the six fields, which fromJSON reads back as this roulette when it has an id and a date. */
    function ToJson(): (r: RouletteJson)
      reads this
      ensures r.id == id && r.segments == segments && r.active == active
      ensures forall freshId, now {:trigger BuildRoulette(RouletteAsData(r), freshId, now)} ::
                freshId != "" && now != "" && RouletteWellFormed(r) ==> BuildRoulette(RouletteAsData(r), freshId, now) == r
    {
      RouletteJson(id, name, description, segments, createdAt, active)
    }

    /** addSegment(segment): appends exactly one segment and changes nothing else. */
    method AddSegment(s: SegmentData, segmentId: string)
      modifies this
      ensures segments == old(segments) + [NewSegment(s, segmentId)]
      ensures ToJson() == old(ToJson()).(segments := segments)
    {
      segments := segments + [NewSegment(s, segmentId)];
    }

    /** removeSegment(segmentId): keeps, in order, every segment with another id. */
    method RemoveSegment(segmentId: string)
      modifies this
      ensures segments == WithoutSegment(old(segments), segmentId)
      ensures ToJson() == old(ToJson()).(segments := segments)
    {
      segments := WithoutSegment(segments, segmentId);
    }
  }
}

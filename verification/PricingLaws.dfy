/**
 What tiered prices promise: a rounding error bounded by the chunks, chunks bounded by the tier
 bounds crossed, prices that fall with volume, and the catalogs the loader accepts.
 */
module PricingLaws {
  import opened Prelude
  import opened Pricing

  // ---------- rounding ----------

  /** Java's Math.round. */
  function HalfUp(x: real): int {
    (x + 0.5).Floor
  }

  /** Python's round. */
  function HalfEven(x: real): int {
    var below := x.Floor;
    var rest := x - below as real;
    if rest < 0.5 || (rest == 0.5 && below % 2 == 0) then below else below + 1
  }

  predicate Tie(x: real) {
    x - x.Floor as real == 0.5
  }

  ghost predicate Nearest(round: real -> int) {
    forall x: real :: -0.5 <= round(x) as real - x <= 0.5
  }

  lemma {:induction false} BothRoundToNearest()
    ensures Nearest(HalfUp) && Nearest(HalfEven)
  {
    forall x: real
      ensures -0.5 <= HalfUp(x) as real - x <= 0.5 && -0.5 <= HalfEven(x) as real - x <= 0.5
    {
    }
  }

  lemma {:induction false} RoundingsDifferOnTies(x: real)
    ensures HalfUp(x) == HalfEven(x) || (Tie(x) && HalfUp(x) == HalfEven(x) + 1)
    ensures HalfUp(x) != HalfEven(x) <==> Tie(x) && x.Floor % 2 == 0
  {
    var below := x.Floor;
    assert HalfUp(x) == if x - below as real < 0.5 then below else below + 1;
  }

  lemma {:induction false} ChunksRoundClosely(chunks: seq<Chunk>, c: Category, mult: real, round: real -> int)
    requires Nearest(round)
    ensures -(|chunks| as real) / 2.0 <= Rounded(chunks, c, mult, round) as real - Unrounded(chunks, c, mult) <=
            |chunks| as real / 2.0
  {
    if chunks != [] {
      ChunksRoundClosely(chunks[1..], c, mult, round);
      var x := Exactly(chunks[0], c, mult);
      assert -0.5 <= round(x) as real - x <= 0.5;
    }
  }

  /** A rounded amount within half a unit for each of `n` roundings. */
  predicate Within(cost: int, exact: real, n: nat) {
    -(n as real) / 2.0 <= cost as real - exact <= n as real / 2.0
  }

  /** The cost of an event is within half a microdollar per chunk of its exact per-token price. */
  lemma {:induction false} CostIsCloseToExact(p: ModelPricing, segments: seq<Segment>, mult: real, round: real -> int)
    requires Nearest(round)
    ensures Within(CostOf(p, segments, mult, round), ExactCost(p, segments, mult), ChunkCount(p, segments))
  {
    if segments != [] {
      var s := segments[0];
      var chunks := Chunks(p, s.start, s.start + s.tokens);
      CostIsCloseToExact(p, segments[1..], mult, round);
      ChunksRoundClosely(chunks, s.category, mult, round);
      ChunksCostTheirTokens(p, s.category, mult, s.start, s.start + s.tokens);
    }
  }

  /** Chunks whose exact price ends in one half. */
  function Ties(chunks: seq<Chunk>, c: Category, mult: real): nat {
    if chunks == [] then 0 else Ties(chunks[1..], c, mult) + if Tie(Exactly(chunks[0], c, mult)) then 1 else 0
  }

  ghost function EventTies(p: ModelPricing, segments: seq<Segment>, mult: real): nat {
    if segments == [] then 0
    else
      var s := segments[0];
      Ties(Chunks(p, s.start, s.start + s.tokens), s.category, mult) + EventTies(p, segments[1..], mult)
  }

  lemma {:induction false} ChunksDifferOnTies(chunks: seq<Chunk>, c: Category, mult: real)
    ensures 0 <= Rounded(chunks, c, mult, HalfUp) - Rounded(chunks, c, mult, HalfEven) <= Ties(chunks, c, mult)
    ensures Ties(chunks, c, mult) <= |chunks|
  {
    if chunks != [] {
      ChunksDifferOnTies(chunks[1..], c, mult);
      RoundingsDifferOnTies(Exactly(chunks[0], c, mult));
    }
  }

  /** Java never charges less than Python, and at most one microdollar more per chunk that is a tie. */
  lemma {:induction false} LanguagesDifferOnTies(p: ModelPricing, segments: seq<Segment>, mult: real)
    ensures 0 <= CostOf(p, segments, mult, HalfUp) - CostOf(p, segments, mult, HalfEven) <= EventTies(p, segments, mult)
    ensures EventTies(p, segments, mult) <= ChunkCount(p, segments)
  {
    if segments != [] {
      LanguagesDifferOnTies(p, segments[1..], mult);
      var s := segments[0];
      ChunksDifferOnTies(Chunks(p, s.start, s.start + s.tokens), s.category, mult);
    }
  }

  /** The categories of an event whose exact price at one tier ends in one half. */
  function TierTies(t: Tier, segments: seq<Segment>, mult: real): nat {
    if segments == [] then 0
    else
      var s := segments[0];
      (if Tie(Price(s.tokens, RateFor(t, s.category, mult))) then 1 else 0) + TierTies(t, segments[1..], mult)
  }

  /** The same at one tier, in volume mode: one microdollar more per category that is a tie. */
  lemma {:induction false} LanguagesDifferOnTiesAtOneTier(t: Tier, segments: seq<Segment>, mult: real)
    ensures 0 <= CostOfAtTier(t, segments, mult, HalfUp) - CostOfAtTier(t, segments, mult, HalfEven)
    ensures CostOfAtTier(t, segments, mult, HalfUp) - CostOfAtTier(t, segments, mult, HalfEven) <=
            TierTies(t, segments, mult) <= |segments|
  {
    if segments != [] {
      LanguagesDifferOnTiesAtOneTier(t, segments[1..], mult);
      RoundingsDifferOnTies(Price(segments[0].tokens, RateFor(t, segments[0].category, mult)));
    }
  }

  // ---------- how many chunks ----------

  /** The tiers whose bound lies strictly between two places of the volume line. */
  function Crossed(tiers: seq<Tier>, lo: int, hi: int): set<nat> {
    set j: nat | j < |tiers| && BoundWithin(tiers[j], lo, hi) :: j
  }

  predicate BoundWithin(t: Tier, lo: int, hi: int) {
    t.upTo.Some? && lo < t.upTo.value * 1_000_000 < hi
  }

  /** A category's tokens fall into one chunk more than they cross tier bounds. */
  lemma {:induction false} ChunksAreBoundsCrossed(p: ModelPricing, cursor: nat, end: nat)
    requires Ordered(p.tiers) && cursor < end
    ensures |Chunks(p, cursor, end)| == 1 + |Crossed(p.tiers, cursor, end)|
    decreases end - cursor
  {
    var next := NextStop(p, cursor, end);
    FirstChunkCrosses(p, cursor, end);
    if next < end {
      ChunksAreBoundsCrossed(p, next, end);
    }
  }

  /** Of the bounds of an ordered list, only that of the cursor's own tier can lie up to the next stop. */
  lemma {:induction false} CrossedFirst(p: ModelPricing, cursor: nat, end: nat, j: nat)
    requires Ordered(p.tiers) && cursor < end && p.tiers != [] && j == PlaceOf(p, cursor)
    ensures var next := NextStop(p, cursor, end);
      Crossed(p.tiers, cursor, end) == if next < end then {j} + Crossed(p.tiers, next, end) else {}
    ensures j !in Crossed(p.tiers, NextStop(p, cursor, end), end)
  {
  }

  /** The first chunk ends at the first bound crossed, or crosses none. */
  lemma {:induction false} FirstChunkCrosses(p: ModelPricing, cursor: nat, end: nat)
    requires Ordered(p.tiers) && cursor < end
    ensures var next := NextStop(p, cursor, end);
      |Crossed(p.tiers, cursor, end)| == if next == end then 0 else 1 + |Crossed(p.tiers, next, end)|
  {
    if p.tiers == [] {
      assert Crossed(p.tiers, cursor, end) == {};
    } else {
      CrossedFirst(p, cursor, end, PlaceOf(p, cursor));
    }
  }

  /** Segments side by side, ending at `end`. */
  predicate Adjoining(segments: seq<Segment>, start: nat, end: nat) {
    if segments == [] then start == end
    else segments[0].start == start && Adjoining(segments[1..], start + segments[0].tokens, end)
  }

  function NonEmpty(segments: seq<Segment>): nat {
    if segments == [] then 0 else NonEmpty(segments[1..]) + if segments[0].tokens > 0 then 1 else 0
  }

  /** The categories of an event price adjacent stretches of the volume line, its total long. */
  lemma {:induction false} SegmentsTile(u: Usage, before: nat)
    ensures Adjoining(Segments(u, before), before, before + Total(u))
  {
    var s := Segments(u, before);
    var end := before + Total(u);
    assert s[1..][1..] == s[2..] && s[2..][1..] == s[3..] && s[3..][1..] == s[4..];
    assert s[4..][1..] == s[5..] && s[5..][1..] == [];
    assert Adjoining(s[5..], s[5].start, end);
    assert Adjoining(s[4..], s[4].start, end);
    assert Adjoining(s[3..], s[3].start, end);
    assert Adjoining(s[2..], s[2].start, end);
    assert Adjoining(s[1..], s[1].start, end);
  }

  lemma {:induction false} AdjoiningGrows(segments: seq<Segment>, start: nat, end: nat)
    requires Adjoining(segments, start, end)
    ensures start <= end
  {
    if segments != [] {
      AdjoiningGrows(segments[1..], start + segments[0].tokens, end);
    }
  }

  lemma {:induction false} StretchChunks(p: ModelPricing, lo: nat, hi: nat)
    requires Ordered(p.tiers) && lo <= hi
    ensures |Chunks(p, lo, hi)| <= (if lo < hi then 1 else 0) + |Crossed(p.tiers, lo, hi)|
  {
    if lo < hi {
      ChunksAreBoundsCrossed(p, lo, hi);
    }
  }

  lemma {:induction false} CountOfFirst(p: ModelPricing, segments: seq<Segment>)
    requires segments != []
    ensures ChunkCount(p, segments) ==
      |Chunks(p, segments[0].start, segments[0].start + segments[0].tokens)| + ChunkCount(p, segments[1..])
    ensures NonEmpty(segments) == NonEmpty(segments[1..]) + if segments[0].tokens > 0 then 1 else 0
  {
  }

  /** `crossed` bounds the chunks of one category, and adds up along the volume line. */
  ghost predicate BoundsChunks(p: ModelPricing, crossed: (nat, nat) -> nat) {
    && (forall lo: nat, hi: nat {:trigger crossed(lo, hi)} :: lo <= hi ==>
          |Chunks(p, lo, hi)| <= (if lo < hi then 1 else 0) + crossed(lo, hi))
    && (forall lo: nat, mid: nat, hi: nat {:trigger crossed(lo, mid), crossed(mid, hi)} :: lo <= mid <= hi ==>
          crossed(lo, mid) + crossed(mid, hi) <= crossed(lo, hi))
  }

  lemma {:induction false} ChunkCountWithin(
    p: ModelPricing, segments: seq<Segment>, start: nat, end: nat, crossed: (nat, nat) -> nat)
    requires BoundsChunks(p, crossed) && Adjoining(segments, start, end)
    ensures ChunkCount(p, segments) <= NonEmpty(segments) + crossed(start, end)
  {
    if segments != [] {
      var tokens := segments[0].tokens;
      ChunkCountWithin(p, segments[1..], start + tokens, end, crossed);
      AdjoiningGrows(segments[1..], start + tokens, end);
      CountOfFirst(p, segments);
      assert crossed(start, start + tokens) + crossed(start + tokens, end) <= crossed(start, end);
    }
  }

  /** An event has at most as many chunks as it has non-empty categories and crosses tier bounds. */
  lemma {:induction false} ChunkCountIsBounded(p: ModelPricing, segments: seq<Segment>, start: nat, end: nat)
    requires Ordered(p.tiers) && Adjoining(segments, start, end)
    ensures ChunkCount(p, segments) <= NonEmpty(segments) + |Crossed(p.tiers, start, end)|
  {
    CrossedBoundsChunks(p);
    ChunkCountWithin(p, segments, start, end, CrossedLine(p.tiers));
  }

  ghost function CrossedLine(tiers: seq<Tier>): (nat, nat) -> nat {
    (lo: nat, hi: nat) => |Crossed(tiers, lo, hi)|
  }

  lemma {:induction false} CrossedBoundsChunks(p: ModelPricing)
    requires Ordered(p.tiers)
    ensures BoundsChunks(p, CrossedLine(p.tiers))
  {
    var crossed := CrossedLine(p.tiers);
    forall lo: nat, hi: nat | lo <= hi
      ensures |Chunks(p, lo, hi)| <= (if lo < hi then 1 else 0) + crossed(lo, hi)
    {
      StretchChunks(p, lo, hi);
    }
    forall lo: nat, mid: nat, hi: nat | lo <= mid <= hi
      ensures crossed(lo, mid) + crossed(mid, hi) <= crossed(lo, hi)
    {
      CrossedParts(p.tiers, lo, mid, hi);
    }
  }

  lemma {:induction false} CrossedParts(tiers: seq<Tier>, lo: int, mid: int, hi: int)
    requires lo <= mid <= hi
    ensures |Crossed(tiers, lo, mid)| + |Crossed(tiers, mid, hi)| <= |Crossed(tiers, lo, hi)|
  {
    var a, b := Crossed(tiers, lo, mid), Crossed(tiers, mid, hi);
    assert a !! b;
    assert |a + b| == |a| + |b|;
    SubsetIsSmaller(a + b, Crossed(tiers, lo, hi));
  }

  lemma {:induction false} SubsetIsSmaller(a: set<nat>, b: set<nat>)
    requires a <= b
    ensures |a| <= |b|
  {
    assert b == a + (b - a);
  }

  /** An event's rounded cost is off its exact cost by at most half a microdollar per category and bound crossed. */
  lemma {:induction false} RoundingBound(p: ModelPricing, u: Usage, before: nat, mult: real, round: real -> int)
    requires Ordered(p.tiers) && Nearest(round)
    ensures
      var s := Segments(u, before);
      var crossed := Crossed(p.tiers, before, before + Total(u));
      Within(CostOf(p, s, mult, round), ExactCost(p, s, mult), NonEmpty(s) + |crossed|)
  {
    SegmentsTile(u, before);
    ChunkCountIsBounded(p, Segments(u, before), before, before + Total(u));
    CostIsCloseToExact(p, Segments(u, before), mult, round);
  }

  // ---------- prices fall with volume ----------

  ghost predicate Falling(tiers: seq<Tier>) {
    forall j, k :: 0 <= j < k < |tiers| ==>
      tiers[j].input >= tiers[k].input && tiers[j].output >= tiers[k].output && tiers[j].embedding >= tiers[k].embedding
  }

  lemma {:induction false} PlacesRise(p: ModelPricing, i: nat, j: nat)
    requires p.tiers != [] && i <= j
    ensures PlaceOf(p, i) <= PlaceOf(p, j)
  {
    assert i / 1_000_000 <= j / 1_000_000;
  }

  lemma {:induction false} ShareFalls(x: real, y: real, mult: real)
    requires x >= y && mult >= 0.0
    ensures x * mult >= y * mult
  {
    assert (x - y) * mult >= 0.0;
  }

  lemma {:induction false} RatesFall(p: ModelPricing, c: Category, mult: real, i: nat, j: nat)
    requires Falling(p.tiers) && mult >= 0.0 && i <= j
    ensures Rate(p, c, mult, i) >= Rate(p, c, mult, j)
  {
    if p.tiers != [] {
      PlacesRise(p, i, j);
      ShareFalls(TierAt(p, i).input, TierAt(p, j).input, mult);
    }
  }

  lemma {:induction false} SumFalls(rate: nat -> real, i: nat, j: nat, n: nat)
    requires i <= j && forall a: nat, b: nat :: a <= b ==> rate(a) >= rate(b)
    ensures SumFrom(rate, i, i + n) >= SumFrom(rate, j, j + n)
  {
    if n > 0 {
      SumFalls(rate, i, j, n - 1);
      assert rate(i + n - 1) >= rate(j + n - 1);
    }
  }

  lemma {:induction false} PerTokenFalls(p: ModelPricing, c: Category, mult: real, i: nat, j: nat, n: nat)
    requires Falling(p.tiers) && mult >= 0.0 && i <= j
    ensures PerToken(p, c, mult, i, i + n) >= PerToken(p, c, mult, j, j + n)
  {
    var rate := RateLine(p, c, mult);
    forall a: nat, b: nat | a <= b
      ensures rate(a) >= rate(b)
    {
      RatesFall(p, c, mult, a, b);
    }
    SumFalls(rate, i, j, n);
  }

  /** The same segments, further along the volume line. */
  predicate Later(s: seq<Segment>, t: seq<Segment>) {
    |s| == |t| && forall k :: 0 <= k < |s| ==>
      s[k].category == t[k].category && s[k].tokens == t[k].tokens && s[k].start <= t[k].start
  }

  lemma {:induction false} SegmentsFall(p: ModelPricing, s: seq<Segment>, t: seq<Segment>, mult: real)
    requires Falling(p.tiers) && mult >= 0.0 && Later(s, t)
    ensures ExactCost(p, s, mult) >= ExactCost(p, t, mult)
  {
    if s != [] {
      SegmentsFall(p, s[1..], t[1..], mult);
      PerTokenFalls(p, s[0].category, mult, s[0].start, t[0].start, s[0].tokens);
    }
  }

  /** With tiers that get cheaper, an event never costs more for coming later in the month. */
  lemma {:induction false} LaterEventsCostNoMore(p: ModelPricing, u: Usage, before: nat, later: nat, mult: real)
    requires Falling(p.tiers) && mult >= 0.0 && before <= later
    ensures ExactCost(p, Segments(u, before), mult) >= ExactCost(p, Segments(u, later), mult)
  {
    SegmentsFall(p, Segments(u, before), Segments(u, later), mult);
  }

  // ---------- one tier ----------

  lemma {:induction false} OneTierSegments(
    p: ModelPricing, t: Tier, before: nat, segments: seq<Segment>, start: nat, end: nat,
    mult: real, round: real -> int)
    requires Nearest(round) && Adjoining(segments, start, end) && before <= start
    requires t == TierAt(p, before) && (t.upTo == None || end <= TierEnd(t))
    ensures CostOf(p, segments, mult, round) == CostOfAtTier(t, segments, mult, round)
  {
    if segments != [] {
      var s := segments[0];
      OneTierSegments(p, t, before, segments[1..], start + s.tokens, end, mult, round);
      AdjoiningGrows(segments[1..], start + s.tokens, end);
      OneTierSegment(p, t, before, s, mult, round);
    }
  }

  lemma {:induction false} OneTierSegment(
    p: ModelPricing, t: Tier, before: nat, s: Segment, mult: real, round: real -> int)
    requires Nearest(round) && before <= s.start
    requires t == TierAt(p, before) && (t.upTo == None || s.start + s.tokens <= TierEnd(t))
    ensures Rounded(Chunks(p, s.start, s.start + s.tokens), s.category, mult, round) == AtTier(t, s, mult, round)
  {
    if s.tokens == 0 {
      PriceOfOneMore(0, RateFor(t, s.category, mult));
      assert -0.5 <= round(0.0) as real - 0.0 <= 0.5;
    } else {
      if p.tiers != [] {
        SameFit(p, before, s.start);
      }
      FitsToken(t, s.start);
      var end := s.start + s.tokens;
      assert NextStop(p, s.start, end) == end && NextChunk(p, s.start, end) == Chunk(t, s.tokens);
      ChargedCons(Chunk(t, s.tokens), [], Charge(s.category, mult, round));
      assert Chunks(p, s.start, end) == [Chunk(t, s.tokens)] + [];
    }
  }

  /** An event that stays inside one tier costs in graduated mode what it does in volume mode: that tier's prices. */
  lemma {:induction false} InsideOneTierModesAgree(
    p: ModelPricing, u: Usage, before: nat, mult: real, round: real -> int)
    requires Nearest(round)
    requires var t := TierAt(p, before); t.upTo == None || before + Total(u) <= TierEnd(t)
    ensures CostOf(p, Segments(u, before), mult, round) ==
            CostOfAtTier(TierAt(p, before), Segments(u, before), mult, round)
    ensures CostsAt(TierAt(p, before), u, mult, round, CostOf(p, Segments(u, before), mult, round))
  {
    OneTierCost(TierAt(p, before), u, before, mult, round);
    SegmentsTile(u, before);
    OneTierSegments(p, TierAt(p, before), before, Segments(u, before), before, before + Total(u), mult, round);
  }

  // ---------- the catalogs the loader accepts ----------

  datatype Bound = Null | Whole(value: int) | NotAnInteger

  datatype RawTier = RawTier(upTo: Bound, input: Option<real>, output: Option<real>, embedding: Option<real>)

  datatype ModeText = Absent | Named(mode: Mode) | Unknown

  datatype RawPricing = RawPricing(
    input: Option<real>, output: Option<real>, embedding: Option<real>, mode: ModeText, tiers: seq<RawTier>)

  datatype PricingError =
    | BoundNotInteger | NegativeTierPrice | InvalidMode | FlatWithTiers | TiersRequired
    | OpenTierNotLast | BoundsNotIncreasing | LastTierNotOpen | NegativePrice

  function Or(x: Option<real>, default: real): real {
    if x.Some? then x.value else default
  }

  function TierOf(raw: RawPricing, t: RawTier): Tier {
    Tier(if t.upTo.Whole? then Some(t.upTo.value) else None,
         Or(t.input, Or(raw.input, 1.0)), Or(t.output, Or(raw.output, 3.0)), Or(t.embedding, Or(raw.embedding, 0.1)))
  }

  /** The model with every default filled in. */
  function Filled(raw: RawPricing): ModelPricing {
    ModelPricing(
      if raw.mode.Named? then raw.mode.mode else if raw.tiers == [] then Flat else Volume,
      Or(raw.input, 1.0), Or(raw.output, 3.0), Or(raw.embedding, 0.1),
      seq(|raw.tiers|, j requires 0 <= j < |raw.tiers| => TierOf(raw, raw.tiers[j])))
  }

  predicate Priced(t: Tier) {
    t.input >= 0.0 && t.output >= 0.0 && t.embedding >= 0.0
  }

  /** A model that can be priced: prices from zero on, tiers in order, and tiers exactly when the mode uses them. */
  predicate ValidPricing(p: ModelPricing) {
    && Priced(BaseTier(p)) && (forall j :: 0 <= j < |p.tiers| ==> Priced(p.tiers[j]))
    && Ordered(p.tiers) && (p.mode == Flat <==> p.tiers == [])
  }

  predicate WellTyped(raw: RawPricing) {
    raw.mode != Unknown && forall j :: 0 <= j < |raw.tiers| ==> raw.tiers[j].upTo != NotAnInteger
  }

  /** What is wrong with a model that is refused for a reason. */
  ghost predicate Faulty(raw: RawPricing, error: PricingError) {
    match error
    case BoundNotInteger => exists j :: 0 <= j < |raw.tiers| && raw.tiers[j].upTo == NotAnInteger
    case NegativeTierPrice => exists j :: 0 <= j < |raw.tiers| && !Priced(TierOf(raw, raw.tiers[j]))
    case InvalidMode => raw.mode == Unknown
    case FlatWithTiers => raw.mode == Named(Flat) && raw.tiers != []
    case TiersRequired => raw.mode.Named? && raw.mode.mode != Flat && raw.tiers == []
    case NegativePrice => Or(raw.input, 1.0) < 0.0 || Or(raw.output, 3.0) < 0.0 || Or(raw.embedding, 0.1) < 0.0
    case _ => FaultyBounds(Filled(raw).tiers, error)
  }

  ghost predicate FaultyBounds(tiers: seq<Tier>, error: PricingError) {
    match error
    case OpenTierNotLast => exists j :: 0 <= j < |tiers| - 1 && tiers[j].upTo == None
    case BoundsNotIncreasing =>
      exists j :: 0 <= j < |tiers| && tiers[j].upTo.Some? && NotAbove(tiers, j, tiers[j].upTo.value)
    case LastTierNotOpen => tiers != [] && tiers[|tiers| - 1].upTo.Some?
    case _ => false
  }

  /** The bound is negative, or not above that of an earlier tier. */
  ghost predicate NotAbove(tiers: seq<Tier>, j: nat, bound: int)
    requires j < |tiers|
  {
    bound < 0 || exists i :: 0 <= i < j && tiers[i].upTo.Some? && bound <= tiers[i].upTo.value
  }

  /** The first loop of from_json. */
  method ReadTiers(raw: RawPricing) returns (r: Result<seq<Tier>, PricingError>)
    ensures r.Ok? ==> r.value == Filled(raw).tiers
    ensures r.Ok? <==> (forall j :: 0 <= j < |raw.tiers| ==>
                          raw.tiers[j].upTo != NotAnInteger && Priced(Filled(raw).tiers[j]))
    ensures r.Err? ==> r.error in {BoundNotInteger, NegativeTierPrice} && Faulty(raw, r.error)
  {
    var tiers: seq<Tier> := [];
    for j := 0 to |raw.tiers|
      invariant tiers == Filled(raw).tiers[..j]
      invariant forall k :: 0 <= k < j ==> raw.tiers[k].upTo != NotAnInteger && Priced(Filled(raw).tiers[k])
    {
      assert Filled(raw).tiers[j] == TierOf(raw, raw.tiers[j]);
      if raw.tiers[j].upTo == NotAnInteger {
        return Err(BoundNotInteger);
      }
      var tier := TierOf(raw, raw.tiers[j]);
      if tier.input < 0.0 || tier.output < 0.0 || tier.embedding < 0.0 {
        return Err(NegativeTierPrice);
      }
      tiers := tiers + [tier];
    }
    r := Ok(tiers);
  }

  /** The second loop of from_json and the check after it. */
  method CheckBounds(tiers: seq<Tier>) returns (error: Option<PricingError>)
    ensures error == None <==> Ordered(tiers)
    ensures error.Some? ==> FaultyBounds(tiers, error.value)
  {
    var previous := -1;
    for j := 0 to |tiers|
      invariant forall k :: 0 <= k < j ==> (tiers[k].upTo == None ==> k == |tiers| - 1)
      invariant forall k :: 0 <= k < j && tiers[k].upTo.Some? ==> 0 <= tiers[k].upTo.value <= previous
      invariant forall k, l :: 0 <= k < l < j && tiers[l].upTo.Some? ==>
                  tiers[k].upTo.Some? && tiers[k].upTo.value < tiers[l].upTo.value
      invariant previous == -1 || exists k :: 0 <= k < j && tiers[k].upTo == Some(previous)
    {
      if tiers[j].upTo == None {
        if j != |tiers| - 1 {
          return Some(OpenTierNotLast);
        }
      } else {
        if tiers[j].upTo.value <= previous {
          assert NotAbove(tiers, j, tiers[j].upTo.value);
          return Some(BoundsNotIncreasing);
        }
        previous := tiers[j].upTo.value;
      }
    }
    if tiers != [] && tiers[|tiers| - 1].upTo.Some? {
      return Some(LastTierNotOpen);
    }
    error := None;
  }

  /** A price that is not given is the default, for a tier the model's; a mode that is not given is by the tiers. */
  ghost predicate DefaultsFilled(raw: RawPricing, p: ModelPricing) {
    && p.input == (match raw.input case Some(x) => x case None => 1.0)
    && p.output == (match raw.output case Some(x) => x case None => 3.0)
    && p.embedding == (match raw.embedding case Some(x) => x case None => 0.1)
    && (raw.mode.Named? ==> p.mode == raw.mode.mode)
    && (raw.mode == Absent ==> p.mode == if raw.tiers == [] then Flat else Volume)
    && |p.tiers| == |raw.tiers|
    && forall j :: 0 <= j < |raw.tiers| ==>
         && p.tiers[j].input == (match raw.tiers[j].input case Some(x) => x case None => p.input)
         && p.tiers[j].output == (match raw.tiers[j].output case Some(x) => x case None => p.output)
         && p.tiers[j].embedding == (match raw.tiers[j].embedding case Some(x) => x case None => p.embedding)
         && (raw.tiers[j].upTo.Whole? ==> p.tiers[j].upTo == Some(raw.tiers[j].upTo.value))
         && (raw.tiers[j].upTo == Null ==> p.tiers[j].upTo == None)
  }

  /** ModelPricing.from_json accepts exactly the well-typed models that can be priced. */
  method FromJson(raw: RawPricing) returns (r: Result<ModelPricing, PricingError>)
    ensures r.Ok? <==> WellTyped(raw) && ValidPricing(Filled(raw))
    ensures r.Ok? ==> r.value == Filled(raw) && DefaultsFilled(raw, r.value)
    ensures r.Err? ==> Faulty(raw, r.error)
  {
    var read := ReadTiers(raw);
    if read.Err? {
      return Err(read.error);
    }
    var tiers := read.value;
    var mode := Flat;
    match raw.mode {
      case Unknown => return Err(InvalidMode);
      case Absent => mode := if tiers != [] then Volume else Flat;
      case Named(m) => mode := m;
    }
    if mode == Flat && tiers != [] {
      return Err(FlatWithTiers);
    }
    if mode != Flat && tiers == [] {
      return Err(TiersRequired);
    }
    var wrong := CheckBounds(tiers);
    if wrong.Some? {
      return Err(wrong.value);
    }
    var p := ModelPricing(mode, Or(raw.input, 1.0), Or(raw.output, 3.0), Or(raw.embedding, 0.1), tiers);
    if p.input < 0.0 || p.output < 0.0 || p.embedding < 0.0 {
      return Err(NegativePrice);
    }
    r := Ok(p);
  }
}

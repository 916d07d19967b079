/**
 Tiered pricing: PricingCatalog.java and its mirror api/pricing_loader.py, over exact rates and an
 explicit rounding function. A rate per million tokens in dollars is microdollars per token.
 */
module Pricing {
  import opened Prelude

  /** Long.MAX_VALUE, MAX_TIER_END: the end of an open tier. */
  const OPEN_END: int := 0x7FFF_FFFF_FFFF_FFFF

  datatype Tier = Tier(upTo: Option<int>, input: real, output: real, embedding: real)

  datatype Mode = Flat | Volume | Graduated

  datatype ModelPricing = ModelPricing(mode: Mode, input: real, output: real, embedding: real, tiers: seq<Tier>)

  datatype Category = Input | Output | CacheRead | Reasoning | CacheWrite | Embedding

  /** The token counts of an event, in the order in which they are priced. */
  datatype Usage = Usage(input: nat, output: nat, cacheRead: nat, reasoning: nat, cacheWrite: nat, embedding: nat)

  function CacheReadRate(t: Tier, mult: real): real {
    t.input * mult
  }

  function RateFor(t: Tier, c: Category, mult: real): real {
    match c
    case Input => t.input
    case Output => t.output
    case Reasoning => t.output
    case CacheRead => CacheReadRate(t, mult)
    case CacheWrite => t.input
    case Embedding => t.embedding
  }

  function Price(tokens: nat, rate: real): real {
    tokens as real * rate
  }

  // ---------- which tier ----------

  predicate Fits(t: Tier, tokensM: int) {
    t.upTo == None || tokensM < t.upTo.value
  }

  ghost predicate IsFirstFit(tiers: seq<Tier>, tokensM: int, j: nat) {
    && j <= |tiers| && (j < |tiers| ==> Fits(tiers[j], tokensM))
    && forall k :: 0 <= k < j ==> !Fits(tiers[k], tokensM)
  }

  lemma {:induction false} FirstFitExists(tiers: seq<Tier>, tokensM: int, k: nat)
    requires k <= |tiers| && forall l :: 0 <= l < k ==> !Fits(tiers[l], tokensM)
    ensures exists j: nat :: IsFirstFit(tiers, tokensM, j)
    decreases |tiers| - k
  {
    if k < |tiers| && !Fits(tiers[k], tokensM) {
      FirstFitExists(tiers, tokensM, k + 1);
    } else {
      assert IsFirstFit(tiers, tokensM, k);
    }
  }

  /** The first tier whose bound is above, or the number of tiers. */
  ghost function FirstFit(tiers: seq<Tier>, tokensM: int): (j: nat)
    ensures IsFirstFit(tiers, tokensM, j)
  {
    FirstFitExists(tiers, tokensM, 0);
    var j: nat :| IsFirstFit(tiers, tokensM, j);
    j
  }

  function BaseTier(p: ModelPricing): Tier {
    Tier(None, p.input, p.output, p.embedding)
  }

  /** The position of the tier that prices token `i`: the first that fits, else the last. */
  ghost function PlaceOf(p: ModelPricing, i: nat): (j: nat)
    requires p.tiers != []
    ensures j < |p.tiers|
  {
    var j := FirstFit(p.tiers, i / 1_000_000);
    if j < |p.tiers| then j else |p.tiers| - 1
  }

  ghost function TierAt(p: ModelPricing, i: nat): Tier {
    if p.tiers == [] then BaseTier(p) else p.tiers[PlaceOf(p, i)]
  }

  /** tierAtToken and tier_at_token. */
  method TierAtToken(p: ModelPricing, i: nat) returns (tier: Tier)
    ensures tier == TierAt(p, i)
  {
    if p.tiers == [] {
      return BaseTier(p);
    }
    var tokensM := i / 1_000_000;
    for k := 0 to |p.tiers|
      invariant forall l :: 0 <= l < k ==> !Fits(p.tiers[l], tokensM)
    {
      if p.tiers[k].upTo == None || tokensM < p.tiers[k].upTo.value {
        return p.tiers[k];
      }
    }
    tier := p.tiers[|p.tiers| - 1];
  }

  function TierEnd(t: Tier): int {
    if t.upTo == None then OPEN_END else t.upTo.value * 1_000_000
  }

  lemma {:induction false} FitsToken(t: Tier, i: nat)
    ensures Fits(t, i / 1_000_000) <==> t.upTo == None || i < TierEnd(t)
    ensures t.upTo.Some? ==> TierEnd(t) != OPEN_END
  {
  }

  /** The tiers a validated model has: bounds that increase strictly from zero on, the last one open. */
  predicate Ordered(tiers: seq<Tier>) {
    && (forall j :: 0 <= j < |tiers| ==> (tiers[j].upTo == None <==> j == |tiers| - 1))
    && (forall j :: 0 <= j < |tiers| - 1 ==> tiers[j].upTo.value >= 0)
    && (forall j, k :: 0 <= j < k < |tiers| - 1 ==> tiers[j].upTo.value < tiers[k].upTo.value)
  }

  /** Token `i` lies between the bound of the tier before `j` and the bound of `j`. */
  predicate Contains(tiers: seq<Tier>, j: nat, i: nat)
    requires j < |tiers|
  {
    && (j > 0 && tiers[j - 1].upTo.Some? ==> tiers[j - 1].upTo.value * 1_000_000 <= i)
    && (tiers[j].upTo.Some? ==> i < tiers[j].upTo.value * 1_000_000)
  }

  /** In a validated list the tier of a token is the one that contains it, and no other does. */
  lemma {:induction false} TierAtContains(p: ModelPricing, i: nat, j: nat)
    requires Ordered(p.tiers) && j < |p.tiers|
    ensures Contains(p.tiers, j, i) <==> j == PlaceOf(p, i)
  {
    var place := PlaceOf(p, i);
    FitsToken(p.tiers[place], i);
    FitsToken(p.tiers[j], i);
    if place > 0 {
      FitsToken(p.tiers[place - 1], i);
    }
    if j > 0 {
      FitsToken(p.tiers[j - 1], i);
    }
  }

  // ---------- the chunks of the loop ----------

  /** A run of tokens priced together. */
  datatype Chunk = Chunk(tier: Tier, tokens: nat)

  function Capacity(t: Tier, cursor: nat, remaining: nat): int {
    if TierEnd(t) == OPEN_END then remaining
    else if remaining < TierEnd(t) - cursor then remaining else TierEnd(t) - cursor
  }

  /** Where one turn of the loop stops, its guard against misconfigured tiers included. */
  ghost function NextStop(p: ModelPricing, cursor: nat, end: nat): (next: nat)
    requires cursor < end
    ensures cursor < next <= end
  {
    var capacity := Capacity(TierAt(p, cursor), cursor, end - cursor);
    if capacity <= 0 then end else cursor + capacity
  }

  /** The tier that one turn of the loop charges. */
  ghost function TurnTier(p: ModelPricing, cursor: nat, end: nat): Tier
    requires cursor < end
  {
    if Capacity(TierAt(p, cursor), cursor, end - cursor) <= 0 && p.tiers != [] then p.tiers[|p.tiers| - 1]
    else TierAt(p, cursor)
  }

  ghost function NextChunk(p: ModelPricing, cursor: nat, end: nat): Chunk
    requires cursor < end
  {
    Chunk(TurnTier(p, cursor, end), NextStop(p, cursor, end) - cursor)
  }

  /** The chunks the loop makes of the tokens from `cursor` up to `end`. */
  ghost function Chunks(p: ModelPricing, cursor: nat, end: nat): seq<Chunk>
    decreases end - cursor
  {
    if cursor >= end then [] else [NextChunk(p, cursor, end)] + Chunks(p, NextStop(p, cursor, end), end)
  }

  function Exactly(chunk: Chunk, c: Category, mult: real): real {
    Price(chunk.tokens, RateFor(chunk.tier, c, mult))
  }

  /** What a chunk is charged: its exact price, rounded. */
  function Charge(c: Category, mult: real, round: real -> int): Chunk -> int {
    (chunk: Chunk) => round(Exactly(chunk, c, mult))
  }

  function Charged(chunks: seq<Chunk>, charge: Chunk -> int): int {
    if chunks == [] then 0 else charge(chunks[0]) + Charged(chunks[1..], charge)
  }

  function Rounded(chunks: seq<Chunk>, c: Category, mult: real, round: real -> int): int {
    Charged(chunks, Charge(c, mult, round))
  }

  function Unrounded(chunks: seq<Chunk>, c: Category, mult: real): real {
    if chunks == [] then 0.0 else Exactly(chunks[0], c, mult) + Unrounded(chunks[1..], c, mult)
  }

  // ---------- token by token ----------

  ghost function Rate(p: ModelPricing, c: Category, mult: real, i: nat): real {
    RateFor(TierAt(p, i), c, mult)
  }

  ghost function RateLine(p: ModelPricing, c: Category, mult: real): nat -> real {
    (i: nat) => Rate(p, c, mult, i)
  }

  ghost function SumFrom(rate: nat -> real, lo: nat, hi: nat): real
    decreases hi
  {
    if hi <= lo then 0.0 else SumFrom(rate, lo, hi - 1) + rate(hi - 1)
  }

  /** The sum, over each token from `lo` up to `hi`, of the rate of the tier that contains it. */
  ghost function PerToken(p: ModelPricing, c: Category, mult: real, lo: nat, hi: nat): real {
    SumFrom(RateLine(p, c, mult), lo, hi)
  }

  lemma {:induction false} SumsAdd(rate: nat -> real, lo: nat, mid: nat, hi: nat)
    requires lo <= mid <= hi
    ensures SumFrom(rate, lo, hi) == SumFrom(rate, lo, mid) + SumFrom(rate, mid, hi)
    decreases hi
  {
    if mid < hi {
      SumsAdd(rate, lo, mid, hi - 1);
    }
  }

  lemma {:induction false} PerTokenSplit(p: ModelPricing, c: Category, mult: real, lo: nat, mid: nat, hi: nat)
    requires lo <= mid <= hi
    ensures PerToken(p, c, mult, lo, hi) == PerToken(p, c, mult, lo, mid) + PerToken(p, c, mult, mid, hi)
  {
    SumsAdd(RateLine(p, c, mult), lo, mid, hi);
  }

  lemma {:induction false} PriceOfOneMore(n: nat, rate: real)
    ensures Price(n + 1, rate) == Price(n, rate) + rate && Price(0, rate) == 0.0
  {
  }

  lemma {:induction false} ConstantSum(rate: nat -> real, lo: nat, hi: nat, r: real)
    requires lo <= hi && forall i :: lo <= i < hi ==> rate(i) == r
    ensures SumFrom(rate, lo, hi) == Price(hi - lo, r)
    decreases hi
  {
    PriceOfOneMore(0, r);
    if lo < hi {
      ConstantSum(rate, lo, hi - 1, r);
      PriceOfOneMore(hi - 1 - lo, r);
    }
  }

  /** Tokens of one tier cost their number times its rate. */
  lemma {:induction false} PerTokenInOneTier(p: ModelPricing, c: Category, mult: real, lo: nat, hi: nat, t: Tier)
    requires lo <= hi && forall i :: lo <= i < hi ==> TierAt(p, i) == t
    ensures PerToken(p, c, mult, lo, hi) == Price(hi - lo, RateFor(t, c, mult))
  {
    forall i | lo <= i < hi
      ensures RateLine(p, c, mult)(i) == RateFor(t, c, mult)
    {
      assert TierAt(p, i) == t;
    }
    ConstantSum(RateLine(p, c, mult), lo, hi, RateFor(t, c, mult));
  }

  /** From the cursor to the end of its tier the first fit does not change. */
  lemma {:induction false} SameFit(p: ModelPricing, cursor: nat, i: nat)
    requires p.tiers != [] && cursor <= i
    requires var t := TierAt(p, cursor); t.upTo == None || i < TierEnd(t) || TierEnd(t) <= cursor
    ensures PlaceOf(p, i) == PlaceOf(p, cursor)
  {
    var j, k := FirstFit(p.tiers, cursor / 1_000_000), FirstFit(p.tiers, i / 1_000_000);
    if j < |p.tiers| {
      FitsToken(p.tiers[j], cursor);
      FitsToken(p.tiers[j], i);
    }
    if k < |p.tiers| {
      FitsToken(p.tiers[k], cursor);
      FitsToken(p.tiers[k], i);
    }
    assert !(k < j) && !(j < k);
  }

  lemma {:induction false} ChargedCons(chunk: Chunk, rest: seq<Chunk>, charge: Chunk -> int)
    ensures Charged([chunk] + rest, charge) == charge(chunk) + Charged(rest, charge)
  {
    assert ([chunk] + rest)[1..] == rest;
  }

  lemma {:induction false} ChunkCostsItsTokens(p: ModelPricing, c: Category, mult: real, cursor: nat, end: nat)
    requires cursor < end
    ensures Exactly(NextChunk(p, cursor, end), c, mult) == PerToken(p, c, mult, cursor, NextStop(p, cursor, end))
  {
    PerTokenInOneTier(p, c, mult, cursor, NextStop(p, cursor, end), TurnTier(p, cursor, end));
  }

  /**
   The loop refines the per-token price: before rounding, its chunks cost what the tokens cost one by
   one, whatever the tier list and wherever the cursor starts.
   */
  lemma {:induction false} ChunksCostTheirTokens(p: ModelPricing, c: Category, mult: real, cursor: nat, end: nat)
    ensures Unrounded(Chunks(p, cursor, end), c, mult) == PerToken(p, c, mult, cursor, end)
    decreases end - cursor
  {
    if cursor < end {
      var next := NextStop(p, cursor, end);
      ChunksCostTheirTokens(p, c, mult, next, end);
      ChunkCostsItsTokens(p, c, mult, cursor, end);
      PerTokenSplit(p, c, mult, cursor, next, end);
    }
  }

  /** The guard of the loop fires exactly when every tier is bounded and ends at or below the cursor. */
  lemma {:induction false} GuardFiresExactlyBeyondEveryTier(p: ModelPricing, cursor: nat, remaining: nat)
    requires remaining > 0
    ensures Capacity(TierAt(p, cursor), cursor, remaining) <= 0 <==>
      p.tiers != [] && forall t :: t in p.tiers ==> t.upTo.Some? && TierEnd(t) <= cursor
  {
    if p.tiers != [] {
      forall t | t in p.tiers
        ensures Fits(t, cursor / 1_000_000) <==> t.upTo == None || cursor < TierEnd(t)
        ensures t.upTo.Some? ==> TierEnd(t) != OPEN_END
      {
        FitsToken(t, cursor);
      }
      assert TierAt(p, cursor) in p.tiers;
      if FirstFit(p.tiers, cursor / 1_000_000) == |p.tiers| {
        assert forall t :: t in p.tiers ==> !Fits(t, cursor / 1_000_000);
      }
    }
  }

  /** So a validated list never reaches it. */
  lemma {:induction false} OrderedTiersNeverReachTheGuard(p: ModelPricing, cursor: nat, remaining: nat)
    requires remaining > 0 && Ordered(p.tiers)
    ensures Capacity(TierAt(p, cursor), cursor, remaining) > 0
  {
    GuardFiresExactlyBeyondEveryTier(p, cursor, remaining);
    if p.tiers != [] {
      assert p.tiers[|p.tiers| - 1] in p.tiers;
    }
  }

  /** costCategoryGraduated and _cost_category_graduated. */
  method CostCategoryGraduated(p: ModelPricing, tokens: nat, start: nat, mult: real, c: Category, round: real -> int)
    returns (cost: int, cursor: nat)
    ensures cost == Rounded(Chunks(p, start, start + tokens), c, mult, round)
    ensures Ordered(p.tiers) && round(0.0) == 0 ==> PaidByTier(p, c, mult, round, start, start + tokens, cost)
    ensures cursor == start + tokens
  {
    cost, cursor := ChargeCategory(p, tokens, start, Charge(c, mult, round));
    ByTierWhenOrdered(p, c, mult, round, start, start + tokens, cost);
  }

  /** The loop at the price of one category. */
  method ChargeCategory(p: ModelPricing, tokens: nat, start: nat, charge: Chunk -> int) returns (cost: int, cursor: nat)
    ensures cost == Charged(Chunks(p, start, start + tokens), charge) && cursor == start + tokens
  {
    cost, cursor := ChargeTokens(p, tokens, start, charge, DueFrom(p, start + tokens, charge));
  }

  lemma {:induction false} ByTierWhenOrdered(
    p: ModelPricing, c: Category, mult: real, round: real -> int, lo: nat, hi: nat, cost: int)
    requires cost == Rounded(Chunks(p, lo, hi), c, mult, round)
    ensures Ordered(p.tiers) && round(0.0) == 0 ==> PaidByTier(p, c, mult, round, lo, hi, cost)
  {
    if Ordered(p.tiers) && round(0.0) == 0 {
      CategoryCostsByTier(p, c, mult, round, lo, hi);
    }
  }

  /** Its loop; `charge` is the rounded price of a chunk, `due` what the tokens from a cursor on cost. */
  method ChargeTokens(p: ModelPricing, tokens: nat, start: nat, charge: Chunk -> int, ghost due: nat -> int)
    returns (cost: int, cursor: nat)
    requires IsDue(p, start + tokens, charge, due)
    ensures cost == due(start) && cursor == start + tokens
  {
    var remaining: nat := tokens;
    cost, cursor := 0, start;
    while remaining > 0
      invariant cursor + remaining == start + tokens && cost + due(cursor) == due(start)
    {
      var tier, capacity := TakeChunk(p, cursor, remaining);
      assert NextChunk(p, cursor, start + tokens) == Chunk(tier, capacity);
      cost := cost + charge(Chunk(tier, capacity));
      cursor := cursor + capacity;
      remaining := remaining - capacity;
    }
  }

  ghost function DueFrom(p: ModelPricing, end: nat, charge: Chunk -> int): nat -> int {
    (cursor: nat) => Charged(Chunks(p, cursor, end), charge)
  }

  /** `due` is what each turn of the loop charges, and what is due after it. */
  ghost predicate IsDue(p: ModelPricing, end: nat, charge: Chunk -> int, due: nat -> int) {
    && due(end) == 0
    && forall cursor: nat {:trigger NextStop(p, cursor, end)} :: cursor < end ==>
         due(cursor) == charge(NextChunk(p, cursor, end)) + due(NextStop(p, cursor, end))
  }

  /** The tier and the capacity of one turn of the loop. */
  method TakeChunk(p: ModelPricing, cursor: nat, remaining: nat) returns (tier: Tier, capacity: nat)
    requires remaining > 0
    ensures tier == TurnTier(p, cursor, cursor + remaining)
            && cursor + capacity == NextStop(p, cursor, cursor + remaining)
  {
    tier := TierAtToken(p, cursor);
    var tierEnd := TierEnd(tier);
    var room := if tierEnd == OPEN_END || remaining < tierEnd - cursor then remaining else tierEnd - cursor;
    if room <= 0 {
      GuardFiresExactlyBeyondEveryTier(p, cursor, remaining);
      return p.tiers[|p.tiers| - 1], remaining;
    }
    capacity := room;
  }

  // ---------- a whole event ----------

  /** A category with its tokens and the place on the volume line where they start. */
  datatype Segment = Segment(category: Category, start: nat, tokens: nat)

  /** The six categories share one cursor: their segments lie side by side. */
  function Segments(u: Usage, before: nat): (segments: seq<Segment>)
    ensures |segments| == 6 && segments[0].start == before
  {
    [Segment(Input, before, u.input),
     Segment(Output, before + u.input, u.output),
     Segment(CacheRead, before + u.input + u.output, u.cacheRead),
     Segment(Reasoning, before + u.input + u.output + u.cacheRead, u.reasoning),
     Segment(CacheWrite, before + u.input + u.output + u.cacheRead + u.reasoning, u.cacheWrite),
     Segment(Embedding, before + u.input + u.output + u.cacheRead + u.reasoning + u.cacheWrite, u.embedding)]
  }

  function Total(u: Usage): nat {
    u.input + u.output + u.cacheRead + u.cacheWrite + u.reasoning + u.embedding
  }

  ghost function CostOf(p: ModelPricing, segments: seq<Segment>, mult: real, round: real -> int): int {
    if segments == [] then 0
    else
      var s := segments[0];
      Rounded(Chunks(p, s.start, s.start + s.tokens), s.category, mult, round) + CostOf(p, segments[1..], mult, round)
  }

  ghost function ExactCost(p: ModelPricing, segments: seq<Segment>, mult: real): real {
    if segments == [] then 0.0
    else
      var s := segments[0];
      PerToken(p, s.category, mult, s.start, s.start + s.tokens) + ExactCost(p, segments[1..], mult)
  }

  ghost function ChunkCount(p: ModelPricing, segments: seq<Segment>): nat {
    if segments == [] then 0
    else |Chunks(p, segments[0].start, segments[0].start + segments[0].tokens)| + ChunkCount(p, segments[1..])
  }

  /** The categories of an event, in the order they are charged. */
  function Amounts(u: Usage): (amounts: seq<(nat, Category)>)
    ensures |amounts| == 6
  {
    [(u.input, Input), (u.output, Output), (u.cacheRead, CacheRead), (u.reasoning, Reasoning),
     (u.cacheWrite, CacheWrite), (u.embedding, Embedding)]
  }

  lemma {:induction false} SegmentsFollow(u: Usage, before: nat, k: nat)
    requires k < 6
    ensures
      var s, amount := Segments(u, before), Amounts(u)[k];
      && s[k].tokens == amount.0 && s[k].category == amount.1
      && (k < 5 ==> s[k + 1].start == s[k].start + amount.0)
  {
  }

  lemma {:induction false} CostFrom(p: ModelPricing, s: seq<Segment>, k: nat, mult: real, round: real -> int)
    requires k < |s|
    ensures CostOf(p, s[k..], mult, round) ==
            Rounded(Chunks(p, s[k].start, s[k].start + s[k].tokens), s[k].category, mult, round)
            + CostOf(p, s[k + 1..], mult, round)
  {
    assert s[k..][1..] == s[k + 1..];
  }

  /** costGraduated and _cost_graduated: the categories in their order, each from where the last one ended. */
  method CostGraduated(p: ModelPricing, u: Usage, before: nat, mult: real, round: real -> int) returns (cost: int)
    ensures cost == CostOf(p, Segments(u, before), mult, round)
    ensures Ordered(p.tiers) && round(0.0) == 0 ==> EventPaidByTier(p, u, before, mult, round, cost)
  {
    cost := ChargeCategories(p, u, before, mult, round);
    EventByTierWhenOrdered(p, u, before, mult, round, cost);
  }

  /** Its loop over the categories. */
  method ChargeCategories(p: ModelPricing, u: Usage, before: nat, mult: real, round: real -> int) returns (cost: int)
    ensures cost == CostOf(p, Segments(u, before), mult, round)
  {
    var amounts := Amounts(u);
    ghost var segments := Segments(u, before);
    var cursor := before;
    cost := 0;
    for k := 0 to 6
      invariant k < 6 ==> cursor == segments[k].start
      invariant cost + CostOf(p, segments[k..], mult, round) == CostOf(p, segments, mult, round)
    {
      SegmentsFollow(u, before, k);
      CostFrom(p, segments, k, mult, round);
      var part;
      part, cursor := CostCategoryGraduated(p, amounts[k].0, cursor, mult, amounts[k].1, round);
      cost := cost + part;
    }
  }

  function AtTier(t: Tier, s: Segment, mult: real, round: real -> int): int {
    round(Price(s.tokens, RateFor(t, s.category, mult)))
  }

  function CostOfAtTier(t: Tier, segments: seq<Segment>, mult: real, round: real -> int): int {
    if segments == [] then 0 else AtTier(t, segments[0], mult, round) + CostOfAtTier(t, segments[1..], mult, round)
  }

  // ---------- tier by tier ----------

  /** The tiers of a model: without any, its own prices without a bound. */
  function TiersOf(p: ModelPricing): seq<Tier> {
    if p.tiers == [] then [BaseTier(p)] else p.tiers
  }

  /** How many of the tokens from `lo` up to `hi` lie in tier `j`: above the bound before it, below its own. */
  function TokensIn(tiers: seq<Tier>, j: nat, lo: nat, hi: nat): nat
    requires j < |tiers|
  {
    var start := if j == 0 || tiers[j - 1].upTo == None then 0 else tiers[j - 1].upTo.value * 1_000_000;
    var end := if tiers[j].upTo == None then hi else tiers[j].upTo.value * 1_000_000;
    var first, last := if start < lo then lo else start, if end < hi then end else hi;
    if first < last then last - first else 0
  }

  /** Tokens at a tier's price, rounded. */
  function AtPrice(price: Tier -> real, round: real -> int): (Tier, nat) -> int {
    (t: Tier, tokens: nat) => round(Price(tokens, price(t)))
  }

  /** Each tier from `j` on, paid for the tokens in it. */
  function ByTier(tiers: seq<Tier>, j: nat, pay: (Tier, nat) -> int, lo: nat, hi: nat): int
    requires j <= |tiers|
    decreases |tiers| - j
  {
    if j == |tiers| then 0 else pay(tiers[j], TokensIn(tiers, j, lo, hi)) + ByTier(tiers, j + 1, pay, lo, hi)
  }

  lemma {:induction false} NoTokensCostNothing(tiers: seq<Tier>, j: nat, pay: (Tier, nat) -> int, lo: nat, hi: nat)
    requires j <= |tiers| && hi <= lo && forall t :: pay(t, 0) == 0
    ensures ByTier(tiers, j, pay, lo, hi) == 0
    decreases |tiers| - j
  {
    if j < |tiers| {
      NoTokensCostNothing(tiers, j + 1, pay, lo, hi);
    }
  }

  /** The position of the cursor's tier in the list. */
  ghost function PlaceIn(p: ModelPricing, cursor: nat): (place: nat)
    ensures place < |TiersOf(p)|
  {
    if p.tiers == [] then 0 else PlaceOf(p, cursor)
  }

  /** One turn of the loop takes what the cursor's tier has up to the end, and nothing of another tier. */
  lemma {:induction false} TurnTakesItsTier(p: ModelPricing, cursor: nat, end: nat, j: nat)
    requires Ordered(p.tiers) && cursor < end && j < |TiersOf(p)|
    ensures
      var tiers, next := TiersOf(p), NextStop(p, cursor, end);
      && (j != PlaceIn(p, cursor) ==> TokensIn(tiers, j, cursor, end) == TokensIn(tiers, j, next, end))
      && (j == PlaceIn(p, cursor) ==>
            TokensIn(tiers, j, cursor, end) == next - cursor && TokensIn(tiers, j, next, end) == 0)
    ensures TurnTier(p, cursor, end) == TiersOf(p)[PlaceIn(p, cursor)]
  {
    OrderedTiersNeverReachTheGuard(p, cursor, end - cursor);
    if p.tiers != [] {
      var place := PlaceIn(p, cursor);
      TierAtContains(p, cursor, place);
      FitsToken(p.tiers[place], cursor);
    }
  }

  lemma {:induction false} TurnByTier(p: ModelPricing, pay: (Tier, nat) -> int, cursor: nat, end: nat, j: nat)
    requires Ordered(p.tiers) && cursor < end && j <= |TiersOf(p)| && forall t :: pay(t, 0) == 0
    ensures
      var tiers, next, place := TiersOf(p), NextStop(p, cursor, end), PlaceIn(p, cursor);
      ByTier(tiers, j, pay, cursor, end) ==
        ByTier(tiers, j, pay, next, end) + if j <= place then pay(tiers[place], next - cursor) else 0
    decreases |TiersOf(p)| - j
  {
    if j < |TiersOf(p)| {
      TurnByTier(p, pay, cursor, end, j + 1);
      TurnTakesItsTier(p, cursor, end, j);
    }
  }

  /** The loop pays each tier for its tokens. */
  lemma {:induction false} ChunksByTier(
    p: ModelPricing, charge: Chunk -> int, pay: (Tier, nat) -> int, cursor: nat, end: nat)
    requires Ordered(p.tiers) && (forall t :: pay(t, 0) == 0)
    requires forall chunk :: charge(chunk) == pay(chunk.tier, chunk.tokens)
    ensures Charged(Chunks(p, cursor, end), charge) == ByTier(TiersOf(p), 0, pay, cursor, end)
    decreases end - cursor
  {
    if cursor < end {
      var next := NextStop(p, cursor, end);
      ChunksByTier(p, charge, pay, next, end);
      ChargedCons(NextChunk(p, cursor, end), Chunks(p, next, end), charge);
      TurnByTier(p, pay, cursor, end, 0);
      TurnTakesItsTier(p, cursor, end, PlaceIn(p, cursor));
    } else {
      NoTokensCostNothing(TiersOf(p), 0, pay, cursor, end);
    }
  }

  /** The prices of a tier, by what they are charged for; a cached token costs a share of the input price. */
  ghost predicate Prices(
    mult: real, input: Tier -> real, output: Tier -> real, cached: Tier -> real, embedding: Tier -> real)
  {
    forall t: Tier :: input(t) == t.input && output(t) == t.output && cached(t) == t.input * mult
                      && embedding(t) == t.embedding
  }

  lemma {:induction false} CategoryByTier(
    p: ModelPricing, c: Category, mult: real, price: Tier -> real, round: real -> int, lo: nat, hi: nat)
    requires Ordered(p.tiers) && round(0.0) == 0 && forall t: Tier :: RateFor(t, c, mult) == price(t)
    ensures Rounded(Chunks(p, lo, hi), c, mult, round) == ByTier(TiersOf(p), 0, AtPrice(price, round), lo, hi)
  {
    forall t: Tier
      ensures AtPrice(price, round)(t, 0) == 0
    {
      PriceOfOneMore(0, price(t));
    }
    forall chunk: Chunk
      ensures Charge(c, mult, round)(chunk) == AtPrice(price, round)(chunk.tier, chunk.tokens)
    {
      assert Exactly(chunk, c, mult) == Price(chunk.tokens, price(chunk.tier));
    }
    ChunksByTier(p, Charge(c, mult, round), AtPrice(price, round), lo, hi);
  }

  /** The price of a tier that a category pays; a cached token costs a share of the input price. */
  ghost predicate IsPriceOf(c: Category, mult: real, price: Tier -> real) {
    forall t: Tier ::
      && (c == Input || c == CacheWrite ==> price(t) == t.input)
      && (c == Output || c == Reasoning ==> price(t) == t.output)
      && (c == CacheRead ==> price(t) == t.input * mult)
      && (c == Embedding ==> price(t) == t.embedding)
  }

  /** Each tier is paid for its tokens at its price for the category, rounded tier by tier. */
  ghost predicate PaidByTier(
    p: ModelPricing, c: Category, mult: real, round: real -> int, lo: nat, hi: nat, cost: int)
  {
    forall price: Tier -> real {:trigger AtPrice(price, round)} :: IsPriceOf(c, mult, price) ==>
      cost == ByTier(TiersOf(p), 0, AtPrice(price, round), lo, hi)
  }

  /** A category of a graduated event costs, tier by tier, its tokens there times the tier's price for it, rounded. */
  lemma {:induction false} CategoryCostsByTier(
    p: ModelPricing, c: Category, mult: real, round: real -> int, lo: nat, hi: nat)
    requires Ordered(p.tiers) && round(0.0) == 0
    ensures PaidByTier(p, c, mult, round, lo, hi, Rounded(Chunks(p, lo, hi), c, mult, round))
  {
    forall price: Tier -> real | IsPriceOf(c, mult, price)
      ensures Rounded(Chunks(p, lo, hi), c, mult, round) == ByTier(TiersOf(p), 0, AtPrice(price, round), lo, hi)
    {
      forall t: Tier
        ensures RateFor(t, c, mult) == price(t)
      {
        assert c == CacheRead ==> price(t) == t.input * mult;
      }
      CategoryByTier(p, c, mult, price, round, lo, hi);
    }
  }

  /** The six amounts of an event at the prices of one tier, each rounded. */
  ghost predicate CostsAt(t: Tier, u: Usage, mult: real, round: real -> int, cost: int) {
    cost ==
      round(Price(u.input, t.input)) + round(Price(u.output, t.output))
      + round(Price(u.cacheRead, t.input * mult)) + round(Price(u.reasoning, t.output))
      + round(Price(u.cacheWrite, t.input)) + round(Price(u.embedding, t.embedding))
  }

  /** costAtTier and _cost_at_tier. */
  method CostAtTier(u: Usage, tier: Tier, mult: real, round: real -> int, ghost before: nat) returns (cost: int)
    ensures cost == CostOfAtTier(tier, Segments(u, before), mult, round)
    ensures CostsAt(tier, u, mult, round, cost)
  {
    cost := round(Price(u.input, tier.input));
    cost := cost + round(Price(u.output, tier.output));
    cost := cost + round(Price(u.cacheRead, CacheReadRate(tier, mult)));
    cost := cost + round(Price(u.reasoning, tier.output));
    cost := cost + round(Price(u.cacheWrite, tier.input));
    cost := cost + round(Price(u.embedding, tier.embedding));
    OneTierCost(tier, u, before, mult, round);
  }

  lemma {:induction false} OneTierCost(t: Tier, u: Usage, before: nat, mult: real, round: real -> int)
    ensures CostsAt(t, u, mult, round, CostOfAtTier(t, Segments(u, before), mult, round))
  {
    var s := Segments(u, before);
    SixSegments(t, s, mult, round);
    assert AtTier(t, s[0], mult, round) == round(Price(u.input, t.input));
    assert AtTier(t, s[1], mult, round) == round(Price(u.output, t.output));
    assert AtTier(t, s[2], mult, round) == round(Price(u.cacheRead, CacheReadRate(t, mult)));
    assert AtTier(t, s[3], mult, round) == round(Price(u.reasoning, t.output));
    assert AtTier(t, s[4], mult, round) == round(Price(u.cacheWrite, t.input));
    assert AtTier(t, s[5], mult, round) == round(Price(u.embedding, t.embedding));
  }

  lemma {:induction false} FirstSegment(t: Tier, s: seq<Segment>, k: nat, mult: real, round: real -> int)
    requires k < |s|
    ensures CostOfAtTier(t, s[k..], mult, round) ==
            AtTier(t, s[k], mult, round) + CostOfAtTier(t, s[k + 1..], mult, round)
  {
    assert s[k..][1..] == s[k + 1..];
  }

  lemma {:induction false} SixSegments(t: Tier, s: seq<Segment>, mult: real, round: real -> int)
    requires |s| == 6
    ensures CostOfAtTier(t, s, mult, round) ==
      AtTier(t, s[0], mult, round) + AtTier(t, s[1], mult, round) + AtTier(t, s[2], mult, round)
      + AtTier(t, s[3], mult, round) + AtTier(t, s[4], mult, round) + AtTier(t, s[5], mult, round)
  {
    assert s[0..] == s && s[6..] == [];
    FirstSegment(t, s, 0, mult, round);
    FirstSegment(t, s, 1, mult, round);
    FirstSegment(t, s, 2, mult, round);
    FirstSegment(t, s, 3, mult, round);
    FirstSegment(t, s, 4, mult, round);
    FirstSegment(t, s, 5, mult, round);
  }

  /** What an event costs under a model: in graduated mode its chunks, else one tier for all of it. */
  ghost function EventCost(p: ModelPricing, u: Usage, before: nat, mult: real, round: real -> int): int {
    if p.mode == Graduated then CostOf(p, Segments(u, before), mult, round)
    else CostOfAtTier(TierAt(p, before), Segments(u, before), mult, round)
  }

  function SumOf(segments: seq<Segment>, part: Segment -> int): int {
    if segments == [] then 0 else part(segments[0]) + SumOf(segments[1..], part)
  }

  lemma {:induction false} SumOfFrom(s: seq<Segment>, k: nat, part: Segment -> int)
    requires k < |s|
    ensures SumOf(s[k..], part) == part(s[k]) + SumOf(s[k + 1..], part)
  {
    assert s[k..][1..] == s[k + 1..];
  }

  lemma {:induction false} SumOfSix(s: seq<Segment>, part: Segment -> int)
    requires |s| == 6
    ensures SumOf(s, part) == part(s[0]) + part(s[1]) + part(s[2]) + part(s[3]) + part(s[4]) + part(s[5])
  {
    assert s[0..] == s && s[6..] == [];
    SumOfFrom(s, 0, part);
    SumOfFrom(s, 1, part);
    SumOfFrom(s, 2, part);
    SumOfFrom(s, 3, part);
    SumOfFrom(s, 4, part);
    SumOfFrom(s, 5, part);
  }

  /** What a segment costs. */
  ghost function PartOf(p: ModelPricing, mult: real, round: real -> int): Segment -> int {
    (s: Segment) => Rounded(Chunks(p, s.start, s.start + s.tokens), s.category, mult, round)
  }

  lemma {:induction false} CostIsSum(p: ModelPricing, segments: seq<Segment>, mult: real, round: real -> int)
    ensures CostOf(p, segments, mult, round) == SumOf(segments, PartOf(p, mult, round))
  {
    if segments != [] {
      CostIsSum(p, segments[1..], mult, round);
    }
  }

  /** `part` is what each segment costs. */
  ghost predicate IsPart(p: ModelPricing, mult: real, round: real -> int, part: Segment -> int) {
    forall s: Segment {:trigger PartOf(p, mult, round)(s)} :: part(s) == PartOf(p, mult, round)(s)
  }

  /** `stretch` is what a stretch of the volume line costs at one kind of price, tier by tier. */
  ghost predicate IsByTier(p: ModelPricing, round: real -> int, stretch: (Tier -> real, nat, nat) -> int) {
    forall price: Tier -> real, lo: nat, hi: nat {:trigger ByTier(TiersOf(p), 0, AtPrice(price, round), lo, hi)} ::
      stretch(price, lo, hi) == ByTier(TiersOf(p), 0, AtPrice(price, round), lo, hi)
  }

  lemma {:induction false} PartByTier(
    p: ModelPricing, s: Segment, mult: real, price: Tier -> real, round: real -> int, part: Segment -> int,
    stretch: (Tier -> real, nat, nat) -> int)
    requires Ordered(p.tiers) && round(0.0) == 0 && forall t: Tier :: RateFor(t, s.category, mult) == price(t)
    requires IsPart(p, mult, round, part) && IsByTier(p, round, stretch)
    ensures part(s) == stretch(price, s.start, s.start + s.tokens)
  {
    CategoryByTier(p, s.category, mult, price, round, s.start, s.start + s.tokens);
    assert PartOf(p, mult, round)(s) == Rounded(Chunks(p, s.start, s.start + s.tokens), s.category, mult, round);
  }

  lemma {:induction false} PartsByTier(
    p: ModelPricing, s: seq<Segment>, mult: real, input: Tier -> real, output: Tier -> real,
    cached: Tier -> real, embedding: Tier -> real, round: real -> int, part: Segment -> int,
    stretch: (Tier -> real, nat, nat) -> int)
    requires Ordered(p.tiers) && round(0.0) == 0 && Prices(mult, input, output, cached, embedding) && |s| == 6
    requires IsPart(p, mult, round, part) && IsByTier(p, round, stretch)
    requires s[0].category == Input && s[1].category == Output && s[2].category == CacheRead
    requires s[3].category == Reasoning && s[4].category == CacheWrite && s[5].category == Embedding
    ensures SumOf(s, part) ==
      stretch(input, s[0].start, s[0].start + s[0].tokens) + stretch(output, s[1].start, s[1].start + s[1].tokens)
      + stretch(cached, s[2].start, s[2].start + s[2].tokens) + stretch(output, s[3].start, s[3].start + s[3].tokens)
      + stretch(input, s[4].start, s[4].start + s[4].tokens)
      + stretch(embedding, s[5].start, s[5].start + s[5].tokens)
  {
    SumOfSix(s, part);
    PartByTier(p, s[0], mult, input, round, part, stretch);
    PartByTier(p, s[1], mult, output, round, part, stretch);
    PartByTier(p, s[2], mult, cached, round, part, stretch);
    PartByTier(p, s[3], mult, output, round, part, stretch);
    PartByTier(p, s[4], mult, input, round, part, stretch);
    PartByTier(p, s[5], mult, embedding, round, part, stretch);
  }

  /** The six categories as adjacent stretches of the volume line, each at its kind of price. */
  function SideBySide(
    u: Usage, before: nat, input: Tier -> real, output: Tier -> real, cached: Tier -> real,
    embedding: Tier -> real, stretch: (Tier -> real, nat, nat) -> int): int
  {
    var a := before + u.input;
    var b := a + u.output;
    var c := b + u.cacheRead;
    var d := c + u.reasoning;
    var e := d + u.cacheWrite;
    stretch(input, before, a) + stretch(output, a, b) + stretch(cached, b, c)
    + stretch(output, c, d) + stretch(input, d, e) + stretch(embedding, e, e + u.embedding)
  }

  lemma {:induction false} SegmentsByTier(
    p: ModelPricing, u: Usage, before: nat, mult: real, input: Tier -> real, output: Tier -> real,
    cached: Tier -> real, embedding: Tier -> real, round: real -> int, part: Segment -> int,
    stretch: (Tier -> real, nat, nat) -> int)
    requires Ordered(p.tiers) && round(0.0) == 0 && Prices(mult, input, output, cached, embedding)
    requires IsPart(p, mult, round, part) && IsByTier(p, round, stretch)
    ensures SumOf(Segments(u, before), part) == SideBySide(u, before, input, output, cached, embedding, stretch)
  {
    PartsByTier(p, Segments(u, before), mult, input, output, cached, embedding, round, part, stretch);
  }

  /**
   A graduated event on a validated list: its categories lie side by side on the volume line in their
   order, and each pays every tier for its tokens there, at the tier's price of its kind.
   */
  lemma {:induction false} GraduatedCostsByTier(
    p: ModelPricing, u: Usage, before: nat, mult: real, input: Tier -> real, output: Tier -> real,
    cached: Tier -> real, embedding: Tier -> real, round: real -> int, stretch: (Tier -> real, nat, nat) -> int)
    requires Ordered(p.tiers) && round(0.0) == 0 && Prices(mult, input, output, cached, embedding)
    requires IsByTier(p, round, stretch)
    ensures CostOf(p, Segments(u, before), mult, round) ==
            SideBySide(u, before, input, output, cached, embedding, stretch)
  {
    var part := PartOf(p, mult, round);
    CostIsSum(p, Segments(u, before), mult, round);
    SegmentsByTier(p, u, before, mult, input, output, cached, embedding, round, part, stretch);
  }

  /** The cost is that of the six categories as adjacent stretches, each paid tier by tier. */
  ghost predicate EventPaidByTier(
    p: ModelPricing, u: Usage, before: nat, mult: real, round: real -> int, cost: int)
  {
    forall input: Tier -> real, output: Tier -> real, cached: Tier -> real, embedding: Tier -> real,
      stretch: (Tier -> real, nat, nat) -> int
      {:trigger SideBySide(u, before, input, output, cached, embedding, stretch)} ::
      Prices(mult, input, output, cached, embedding) && IsByTier(p, round, stretch) ==>
        cost == SideBySide(u, before, input, output, cached, embedding, stretch)
  }

  lemma {:induction false} EventByTierWhenOrdered(
    p: ModelPricing, u: Usage, before: nat, mult: real, round: real -> int, cost: int)
    requires cost == CostOf(p, Segments(u, before), mult, round)
    ensures Ordered(p.tiers) && round(0.0) == 0 ==> EventPaidByTier(p, u, before, mult, round, cost)
  {
    if Ordered(p.tiers) && round(0.0) == 0 {
      forall input: Tier -> real, output: Tier -> real, cached: Tier -> real, embedding: Tier -> real,
        stretch: (Tier -> real, nat, nat) -> int
        | Prices(mult, input, output, cached, embedding) && IsByTier(p, round, stretch)
        ensures cost == SideBySide(u, before, input, output, cached, embedding, stretch)
      {
        GraduatedCostsByTier(p, u, before, mult, input, output, cached, embedding, round, stretch);
      }
    }
  }

  /** calculateEventCostMicro and calculate_cost_micro, for the model's pricing. */
  method CalculateCost(p: ModelPricing, u: Usage, before: nat, mult: real, round: real -> int) returns (cost: int)
    ensures cost == EventCost(p, u, before, mult, round)
    ensures p.mode == Graduated && Ordered(p.tiers) && round(0.0) == 0 ==>
      EventPaidByTier(p, u, before, mult, round, cost)
    ensures p.mode != Graduated ==> CostsAt(TierAt(p, before), u, mult, round, cost)
    ensures p.mode != Graduated && p.tiers == [] ==>
      CostsAt(Tier(None, p.input, p.output, p.embedding), u, mult, round, cost)
  {
    if p.mode == Graduated {
      cost := CostGraduated(p, u, before, mult, round);
    } else {
      var tier := TierAtToken(p, before);
      cost := CostAtTier(u, tier, mult, round, before);
    }
  }
}

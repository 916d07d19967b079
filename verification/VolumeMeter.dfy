/**
 The monthly volume meter (MonthlyVolumeMeter.java) and the keyed function that stamps each event
 with it (MonthlyVolumeStampFunction.java). Events arrive in any order; `month` is BillingPeriod.monthUtc.
 */
module VolumeMeter {
  import opened Prelude
  import opened Pricing
  import opened PricingLaws

  datatype Event = Event(timestamp: int, usage: Usage)

  /** The meter's fields. */
  datatype Meter = Meter(tokens: nat, period: Option<int>)

  function Rolled(m: Meter, period: int): Meter {
    if m.period == Some(period) then m else Meter(0, Some(period))
  }

  function Advanced(m: Meter, period: int, tokens: nat): Meter {
    Rolled(m, period).(tokens := Rolled(m, period).tokens + tokens)
  }

  class MonthlyVolumeMeter {
    var monthlyTokens: nat
    var billingPeriod: Option<int>
    const month: int -> int

    ghost function State(): Meter
      reads this
    {
      Meter(monthlyTokens, billingPeriod)
    }

    constructor (tokens: nat, period: Option<int>, month: int -> int)
      ensures State() == Meter(tokens, period) && this.month == month
    {
      monthlyTokens, billingPeriod, this.month := tokens, period, month;
    }

    method RollPeriodIfNeeded(timestamp: int)
      modifies this
      ensures State() == Rolled(old(State()), month(timestamp))
    {
      var period := month(timestamp);
      if billingPeriod == None || billingPeriod.value != period {
        billingPeriod := Some(period);
        monthlyTokens := 0;
      }
    }

    method TokensBefore(timestamp: int) returns (tokens: nat)
      modifies this
      ensures State() == Rolled(old(State()), month(timestamp)) && tokens == State().tokens
    {
      RollPeriodIfNeeded(timestamp);
      tokens := monthlyTokens;
    }

    method Advance(timestamp: int, tokens: nat)
      modifies this
      ensures State() == Advanced(old(State()), month(timestamp), tokens)
    {
      RollPeriodIfNeeded(timestamp);
      monthlyTokens := monthlyTokens + tokens;
    }
  }

  /** The keyed state: two values, absent at first. */
  class MonthlyVolumeStampFunction {
    var volume: Option<nat>
    var period: Option<int>
    const month: int -> int

    ghost function State(): Meter
      reads this
    {
      Meter(if volume.Some? then volume.value else 0, period)
    }

    constructor (month: int -> int)
      ensures State() == Meter(0, None) && this.month == month
    {
      volume, period, this.month := None, None, month;
    }

    /** Load the meter, read it, advance it, save it: the stamp is what came before the event. */
    method ProcessElement(e: Event) returns (before: nat)
      modifies this
      ensures before == Rolled(old(State()), month(e.timestamp)).tokens
      ensures State() == Advanced(old(State()), month(e.timestamp), Total(e.usage))
    {
      var meter := new MonthlyVolumeMeter(if volume.Some? then volume.value else 0, period, month);
      before := meter.TokensBefore(e.timestamp);
      meter.Advance(e.timestamp, Total(e.usage));
      volume, period := Some(meter.monthlyTokens), meter.billingPeriod;
    }
  }

  // ---------- over an arrival order ----------

  /** The meter after some events. */
  function After(events: seq<Event>, month: int -> int): Meter {
    if events == [] then Meter(0, None)
    else
      var e := events[|events| - 1];
      Advanced(After(events[..|events| - 1], month), month(e.timestamp), Total(e.usage))
  }

  /** The stamp of event `n`. */
  function Stamp(events: seq<Event>, n: nat, month: int -> int): nat
    requires n < |events|
  {
    Rolled(After(events[..n], month), month(events[n].timestamp)).tokens
  }

  /** The stamps a run of the function produces. */
  method StampAll(events: seq<Event>, month: int -> int) returns (stamps: seq<nat>)
    ensures |stamps| == |events| && forall n :: 0 <= n < |events| ==> stamps[n] == Stamp(events, n, month)
  {
    var f := new MonthlyVolumeStampFunction(month);
    stamps := [];
    for n := 0 to |events|
      invariant f.month == month && f.State() == After(events[..n], month)
      invariant |stamps| == n && forall k :: 0 <= k < n ==> stamps[k] == Stamp(events, k, month)
    {
      assert events[..n + 1][..n] == events[..n];
      var before := f.ProcessElement(events[n]);
      stamps := stamps + [before];
    }
    assert events[..|events|] == events;
  }

  function Volume(events: seq<Event>): nat {
    if events == [] then 0 else Volume(events[..|events| - 1]) + Total(events[|events| - 1].usage)
  }

  ghost predicate SameMonth(events: seq<Event>, period: int, month: int -> int) {
    forall k :: 0 <= k < |events| ==> month(events[k].timestamp) == period
  }

  /** `from` is where the longest run of `period` events right before `n` starts. */
  ghost predicate RunStarts(events: seq<Event>, from: nat, n: nat, period: int, month: int -> int)
    requires n <= |events|
  {
    && from <= n && SameMonth(events[from..n], period, month)
    && (from > 0 ==> month(events[from - 1].timestamp) != period)
  }

  lemma {:induction false} MeterIsRunVolume(events: seq<Event>, from: nat, n: nat, period: int, month: int -> int)
    requires n <= |events| && RunStarts(events, from, n, period, month)
    ensures Rolled(After(events[..n], month), period).tokens == Volume(events[from..n])
    decreases n
  {
    if n > 0 {
      var e := events[n - 1];
      assert events[..n][..n - 1] == events[..n - 1];
      if from < n {
        assert events[from..n][n - 1 - from] == e;
        assert events[from..n][..n - 1 - from] == events[from..n - 1];
        assert RunStarts(events, from, n - 1, period, month);
        MeterIsRunVolume(events, from, n - 1, period, month);
      }
    }
  }

  /** The stamp is the volume of the longest run of events of the same month immediately before. */
  lemma {:induction false} StampIsRunVolume(events: seq<Event>, from: nat, n: nat, month: int -> int)
    requires n < |events| && RunStarts(events, from, n, month(events[n].timestamp), month)
    ensures Stamp(events, n, month) == Volume(events[from..n])
  {
    MeterIsRunVolume(events, from, n, month(events[n].timestamp), month);
  }

  /** So an event of another month in between, late or early, makes the month start over. */
  lemma {:induction false} AnotherMonthRestarts(events: seq<Event>, n: nat, month: int -> int)
    requires 0 < n < |events| && month(events[n - 1].timestamp) != month(events[n].timestamp)
    ensures Stamp(events, n, month) == 0
  {
    StampIsRunVolume(events, n, n, month);
  }

  // ---------- tiling ----------

  /** The segments that the events from `from` to `n` price, in order. */
  function Priced(events: seq<Event>, from: nat, n: nat, month: int -> int): seq<Segment>
    requires from <= n <= |events|
  {
    if n == from then []
    else Priced(events, from, n - 1, month) + Segments(events[n - 1].usage, Stamp(events, n - 1, month))
  }

  lemma {:induction false} AdjoiningChain(s: seq<Segment>, t: seq<Segment>, a: nat, b: nat, c: nat)
    requires Adjoining(s, a, b) && Adjoining(t, b, c)
    ensures Adjoining(s + t, a, c)
  {
    if s == [] {
      assert s + t == t;
    } else {
      AdjoiningChain(s[1..], t, a + s[0].tokens, b, c);
      assert (s + t)[1..] == s[1..] + t;
    }
  }

  lemma {:induction false} LastOfRun(events: seq<Event>, from: nat, n: nat, period: int, month: int -> int)
    requires from < n <= |events| && RunStarts(events, from, n, period, month)
    ensures RunStarts(events, from, n - 1, period, month)
    ensures Stamp(events, n - 1, month) == Volume(events[from..n - 1])
    ensures Volume(events[from..n]) == Volume(events[from..n - 1]) + Total(events[n - 1].usage)
  {
    assert events[from..n][n - 1 - from] == events[n - 1];
    assert events[from..n][..n - 1 - from] == events[from..n - 1];
    assert forall k :: 0 <= k < n - 1 - from ==> events[from..n - 1][k] == events[from..n][k];
    StampIsRunVolume(events, from, n - 1, month);
  }

  /**
   The categories of consecutive events of a month price adjacent stretches of the volume line, without
   gap or overlap, from zero to the volume of the run.
   */
  lemma {:induction false} RunTilesTheVolumeLine(events: seq<Event>, from: nat, n: nat, period: int, month: int -> int)
    requires n <= |events| && RunStarts(events, from, n, period, month)
    ensures Adjoining(Priced(events, from, n, month), 0, Volume(events[from..n]))
  {
    if n > from {
      LastOfRun(events, from, n, period, month);
      RunTilesTheVolumeLine(events, from, n - 1, period, month);
      var u, before := events[n - 1].usage, Volume(events[from..n - 1]);
      SegmentsTile(u, before);
      AdjoiningChain(Priced(events, from, n - 1, month), Segments(u, before), 0, before, before + Total(u));
    }
  }

  predicate InputOnly(u: Usage) {
    u == Usage(u.input, 0, 0, 0, 0, 0)
  }

  lemma {:induction false} InputOnlyCost(p: ModelPricing, u: Usage, before: nat, mult: real)
    requires InputOnly(u)
    ensures ExactCost(p, Segments(u, before), mult) == PerToken(p, Input, mult, before, before + Total(u))
  {
    var s := Segments(u, before);
    assert s[1..][1..] == s[2..] && s[2..][1..] == s[3..] && s[3..][1..] == s[4..];
    assert s[4..][1..] == s[5..] && s[5..][1..] == [];
    assert ExactCost(p, s[5..], mult) == 0.0;
    assert ExactCost(p, s[3..], mult) == 0.0;
    assert ExactCost(p, s[1..], mult) == 0.0;
  }

  /** The exact price of event `k` at its stamp. */
  ghost function CostAtStamp(p: ModelPricing, events: seq<Event>, k: nat, month: int -> int, mult: real): real
    requires k < |events|
  {
    ExactCost(p, Segments(events[k].usage, Stamp(events, k, month)), mult)
  }

  lemma {:induction false} InputOnlyExtends(p: ModelPricing, u: Usage, before: nat, mult: real)
    requires InputOnly(u)
    ensures PerToken(p, Input, mult, 0, before) + ExactCost(p, Segments(u, before), mult)
         == PerToken(p, Input, mult, 0, before + Total(u))
  {
    InputOnlyCost(p, u, before, mult);
    PerTokenSplit(p, Input, mult, 0, before, before + Total(u));
  }

  /** Event `k` costs what the price line `f` rises by over its stretch of the volume line. */
  ghost predicate CostsItsStretch(f: nat -> real, events: seq<Event>, k: nat, month: int -> int, cost: real)
    requires k < |events|
  {
    cost == f(Stamp(events, k, month) + Total(events[k].usage)) - f(Stamp(events, k, month))
  }

  lemma {:induction false} LastStretch(
    f: nat -> real, events: seq<Event>, from: nat, n: nat, period: int, month: int -> int, cost: real)
    requires from < n <= |events| && RunStarts(events, from, n, period, month)
             && CostsItsStretch(f, events, n - 1, month, cost)
    ensures RunStarts(events, from, n - 1, period, month)
    ensures cost == f(Volume(events[from..n])) - f(Volume(events[from..n - 1]))
  {
    ShorterRun(events, from, n - 1, n, period, month);
    LastOfRun(events, from, n, period, month);
  }

  /** Whatever the price line, a run costs what it rises by over the volume of the run. */
  lemma {:induction false} RunCostsItsVolume(
    f: nat -> real, events: seq<Event>, from: nat, n: nat, period: int, month: int -> int, costs: nat -> real)
    requires n <= |events| && RunStarts(events, from, n, period, month)
    requires forall k :: from <= k < n ==> CostsItsStretch(f, events, k, month, costs(k))
    ensures SumFrom(costs, from, n) == f(Volume(events[from..n])) - f(0)
    decreases n
  {
    if n == from {
      assert events[from..n] == [];
    } else {
      LastStretch(f, events, from, n, period, month, costs(n - 1));
      RunCostsItsVolume(f, events, from, n - 1, period, month, costs);
    }
  }

  /** The exact price of each event at its stamp. */
  ghost function EventPrices(p: ModelPricing, events: seq<Event>, month: int -> int, mult: real): nat -> real {
    (k: nat) => if k < |events| then CostAtStamp(p, events, k, month, mult) else 0.0
  }

  /** The price of the first `v` tokens of a month, all of them input. */
  ghost function InputLine(p: ModelPricing, mult: real): nat -> real {
    (v: nat) => PerToken(p, Input, mult, 0, v)
  }

  /** The exact price of an uninterrupted month of input tokens depends on its total volume only. */
  lemma {:induction false} InputMonthCostsItsVolume(
    p: ModelPricing, events: seq<Event>, from: nat, n: nat, period: int, month: int -> int, mult: real)
    requires n <= |events| && RunStarts(events, from, n, period, month)
    requires forall k :: from <= k < n ==> InputOnly(events[k].usage)
    ensures SumFrom(EventPrices(p, events, month, mult), from, n) ==
            PerToken(p, Input, mult, 0, Volume(events[from..n]))
  {
    forall k | from <= k < n
      ensures CostsItsStretch(InputLine(p, mult), events, k, month, EventPrices(p, events, month, mult)(k))
    {
      InputOnlyExtends(p, events[k].usage, Stamp(events, k, month), mult);
    }
    RunCostsItsVolume(InputLine(p, mult), events, from, n, period, month, EventPrices(p, events, month, mult));
  }

  lemma {:induction false} ShorterRun(events: seq<Event>, from: nat, m: nat, n: nat, period: int, month: int -> int)
    requires m <= n <= |events| && from <= m && RunStarts(events, from, n, period, month)
    ensures RunStarts(events, from, m, period, month)
  {
    assert forall i :: 0 <= i < m - from ==> events[from..m][i] == events[from..n][i];
  }
}

/**
 The usage counters of the two window sinks (RedisSink.java and the first half of the script in
 BudgetEnforcerSink.java), replays included. A key is kept as the parts it is printed from.
 */
module UsageSink {
  import opened Prelude

  datatype Field = InputTokens | OutputTokens | TotalTokens | EventCount | CostUsd | CacheReadTokens | ReasoningTokens

  datatype Counter =
    | Customer(tenant: Option<nat>, customer: nat, what: Field)
    | Model(tenant: Option<nat>, customer: nat, model: nat, what: Field)
    | Global(tenant: Option<nat>, what: Field)
    | PeriodVolume(tenant: Option<nat>, customer: nat, model: nat, month: int)
    | MonthRollup(customer: nat, month: int, what: Field)
    | DayRollup(customer: nat, day: int, what: Field)

  /** What identifies a window: tenant, customer, model and start. */
  datatype WindowId = WindowId(tenant: Option<nat>, customer: nat, model: nat, start: int)

  datatype Window = Window(
    id: WindowId, end: int, month: int, day: int,
    input: int, output: int, total: int, events: int, cost: real, cacheRead: int, reasoning: int)

  type Counters = map<Counter, real>

  function Get(m: Counters, c: Counter): real {
    if c in m then m[c] else 0.0
  }

  // ---------- the increments of the scripts ----------

  datatype Incr = Incr(key: Counter, amount: real)

  function Amount(w: Window, what: Field): real {
    match what
    case InputTokens => w.input as real
    case OutputTokens => w.output as real
    case TotalTokens => w.total as real
    case EventCount => w.events as real
    case CostUsd => w.cost
    case CacheReadTokens => w.cacheRead as real
    case ReasoningTokens => w.reasoning as real
  }

  function CustomerIncr(w: Window, what: Field): Incr {
    Incr(Customer(w.id.tenant, w.id.customer, what), Amount(w, what))
  }

  function ModelIncrs(w: Window): seq<Incr> {
    [ModelIncr(w, InputTokens), ModelIncr(w, OutputTokens), ModelIncr(w, TotalTokens), ModelIncr(w, CostUsd)]
  }

  function ModelIncr(w: Window, what: Field): Incr {
    Incr(Model(w.id.tenant, w.id.customer, w.id.model, what), Amount(w, what))
  }

  /** The counters that are only written when positive. */
  function WhenPositive(incr: Incr): seq<Incr> {
    if incr.amount > 0.0 then [incr] else []
  }

  function ExtraIncrs(w: Window): seq<Incr> {
    WhenPositive(CustomerIncr(w, CacheReadTokens)) + WhenPositive(CustomerIncr(w, ReasoningTokens))
  }

  function GlobalIncr(w: Window, what: Field): Incr {
    Incr(Global(w.id.tenant, what), Amount(w, what))
  }

  function GlobalIncrs(w: Window): seq<Incr> {
    [GlobalIncr(w, TotalTokens), GlobalIncr(w, InputTokens), GlobalIncr(w, OutputTokens), GlobalIncr(w, EventCount),
     GlobalIncr(w, CostUsd)]
  }

  function VolumeIncr(w: Window): Incr {
    Incr(PeriodVolume(w.id.tenant, w.id.customer, w.id.model, w.month), w.total as real)
  }

  /** The two rollup hashes; unlike every other key, theirs has no tenant. */
  function RollupKey(w: Window, monthly: bool, what: Field): Counter {
    if monthly then MonthRollup(w.id.customer, w.month, what) else DayRollup(w.id.customer, w.day, what)
  }

  function RollupIncr(w: Window, monthly: bool, what: Field): Incr {
    Incr(RollupKey(w, monthly, what), Amount(w, what))
  }

  function RollupIncrs(w: Window, monthly: bool): seq<Incr> {
    [RollupIncr(w, monthly, InputTokens), RollupIncr(w, monthly, OutputTokens), RollupIncr(w, monthly, TotalTokens),
     RollupIncr(w, monthly, EventCount), RollupIncr(w, monthly, CostUsd)]
    + WhenPositive(RollupIncr(w, monthly, CacheReadTokens)) + WhenPositive(RollupIncr(w, monthly, ReasoningTokens))
  }

  function Rest(w: Window): seq<Incr> {
    GlobalIncrs(w) + [VolumeIncr(w)] + RollupIncrs(w, true) + RollupIncrs(w, false)
  }

  function CustomerIncrs(w: Window): seq<Incr> {
    [CustomerIncr(w, InputTokens), CustomerIncr(w, OutputTokens), CustomerIncr(w, TotalTokens),
     CustomerIncr(w, CostUsd), CustomerIncr(w, EventCount)]
  }

  /** The order of RedisSink. */
  function RedisIncrs(w: Window): seq<Incr> {
    CustomerIncrs(w) + ModelIncrs(w) + ExtraIncrs(w) + Rest(w)
  }

  /** The order of BudgetEnforcerSink. */
  function BudgetIncrs(w: Window): seq<Incr> {
    [CustomerIncr(w, InputTokens), CustomerIncr(w, OutputTokens), CustomerIncr(w, TotalTokens),
     CustomerIncr(w, EventCount)]
    + ModelIncrs(w) + [CustomerIncr(w, CostUsd)] + ExtraIncrs(w) + Rest(w)
  }

  // ---------- what each key should get ----------

  /** The windows a counter is about. */
  predicate About(w: Window, c: Counter) {
    match c
    case Customer(t, cu, _) => t == w.id.tenant && cu == w.id.customer
    case Model(t, cu, m, what) =>
      && t == w.id.tenant && cu == w.id.customer && m == w.id.model
      && what in {InputTokens, OutputTokens, TotalTokens, CostUsd}
    case Global(t, what) => t == w.id.tenant && what !in {CacheReadTokens, ReasoningTokens}
    case PeriodVolume(t, cu, m, month) => t == w.id.tenant && cu == w.id.customer && m == w.id.model && month == w.month
    case MonthRollup(cu, month, _) => cu == w.id.customer && month == w.month
    case DayRollup(cu, day, _) => cu == w.id.customer && day == w.day
  }

  function FieldOf(c: Counter): Field {
    if c.PeriodVolume? then TotalTokens else c.what
  }

  /** Cache and reasoning tokens are only added when positive. */
  function Counted(w: Window, what: Field): real {
    if what in {CacheReadTokens, ReasoningTokens} && Amount(w, what) <= 0.0 then 0.0 else Amount(w, what)
  }

  function Delta(w: Window, c: Counter): real {
    if About(w, c) then Counted(w, FieldOf(c)) else 0.0
  }

  function SumFor(incrs: seq<Incr>, c: Counter): real {
    if incrs == [] then 0.0
    else SumFor(incrs[..|incrs| - 1], c) + if incrs[|incrs| - 1].key == c then incrs[|incrs| - 1].amount else 0.0
  }

  lemma {:induction false} SumForPlus(a: seq<Incr>, b: seq<Incr>, c: Counter)
    ensures SumFor(a + b, c) == SumFor(a, c) + SumFor(b, c)
  {
    if b == [] {
      assert a + b == a;
    } else {
      assert (a + b)[..|a + b| - 1] == a + b[..|b| - 1];
      SumForPlus(a, b[..|b| - 1], c);
    }
  }

  lemma {:induction false} SumForOne(i: Incr, c: Counter)
    ensures SumFor([i], c) == if i.key == c then i.amount else 0.0
  {
    assert [i][..0] == [];
  }

  lemma {:induction false} SumForFour(i: Incr, j: Incr, k: Incr, l: Incr, c: Counter)
    ensures SumFor([i, j, k, l], c) == SumFor([i], c) + SumFor([j], c) + SumFor([k], c) + SumFor([l], c)
  {
    assert [i, j, k, l] == [i] + [j] + [k] + [l];
    SumForPlus([i] + [j] + [k], [l], c);
    SumForPlus([i] + [j], [k], c);
    SumForPlus([i], [j], c);
  }

  lemma {:induction false} SumForFive(h: Incr, i: Incr, j: Incr, k: Incr, l: Incr, c: Counter)
    ensures SumFor([h, i, j, k, l], c) ==
            SumFor([h], c) + SumFor([i], c) + SumFor([j], c) + SumFor([k], c) + SumFor([l], c)
  {
    assert [h, i, j, k, l] == [h, i, j, k] + [l];
    SumForPlus([h, i, j, k], [l], c);
    SumForFour(h, i, j, k, c);
  }

  /** Both orders add the same to every counter. */
  lemma {:induction false} OrdersAgree(w: Window, c: Counter)
    ensures SumFor(RedisIncrs(w), c) == SumFor(BudgetIncrs(w), c)
    ensures SumFor(RedisIncrs(w), c) ==
      SumFor(CustomerIncrs(w), c) + SumFor(ModelIncrs(w), c) + SumFor(ExtraIncrs(w), c) + SumFor(Rest(w), c)
  {
    var i, o, t, e, p := CustomerIncr(w, InputTokens), CustomerIncr(w, OutputTokens), CustomerIncr(w, TotalTokens),
                         CustomerIncr(w, EventCount), CustomerIncr(w, CostUsd);
    var m, x, r := ModelIncrs(w), ExtraIncrs(w), Rest(w);
    SumForFour(i, o, t, e, c);
    SumForFive(i, o, t, p, e, c);
    SumForPlus([i, o, t, p, e] + m + x, r, c);
    SumForPlus([i, o, t, p, e] + m, x, c);
    SumForPlus([i, o, t, p, e], m, c);
    SumForPlus([i, o, t, e] + m + [p] + x, r, c);
    SumForPlus([i, o, t, e] + m + [p], x, c);
    SumForPlus([i, o, t, e] + m, [p], c);
    SumForPlus([i, o, t, e], m, c);
  }

  lemma {:induction false} CustomerPart(w: Window, c: Counter)
    ensures SumFor(CustomerIncrs(w), c) + SumFor(ExtraIncrs(w), c) == if c.Customer? then Delta(w, c) else 0.0
  {
    var i, o, t, p, e := CustomerIncr(w, InputTokens), CustomerIncr(w, OutputTokens), CustomerIncr(w, TotalTokens),
                         CustomerIncr(w, CostUsd), CustomerIncr(w, EventCount);
    SumForFive(i, o, t, p, e, c);
    SumForOne(i, c);
    SumForOne(o, c);
    SumForOne(t, c);
    SumForOne(p, c);
    SumForOne(e, c);
    SumForPlus(WhenPositive(CustomerIncr(w, CacheReadTokens)), WhenPositive(CustomerIncr(w, ReasoningTokens)), c);
  }

  lemma {:induction false} ModelPart(w: Window, c: Counter)
    ensures SumFor(ModelIncrs(w), c) == if c.Model? then Delta(w, c) else 0.0
  {
    var i, o := ModelIncr(w, InputTokens), ModelIncr(w, OutputTokens);
    var t, p := ModelIncr(w, TotalTokens), ModelIncr(w, CostUsd);
    SumForFour(i, o, t, p, c);
    SumForOne(i, c);
    SumForOne(o, c);
    SumForOne(t, c);
    SumForOne(p, c);
  }

  lemma {:induction false} GlobalPart(w: Window, c: Counter)
    ensures SumFor(GlobalIncrs(w), c) == if c.Global? then Delta(w, c) else 0.0
  {
    var t, i, o, e, p := GlobalIncr(w, TotalTokens), GlobalIncr(w, InputTokens), GlobalIncr(w, OutputTokens),
                         GlobalIncr(w, EventCount), GlobalIncr(w, CostUsd);
    SumForFive(t, i, o, e, p, c);
    SumForOne(t, c);
    SumForOne(i, c);
    SumForOne(o, c);
    SumForOne(e, c);
    SumForOne(p, c);
  }

  lemma {:induction false} RollupPart(w: Window, monthly: bool, c: Counter)
    ensures SumFor(RollupIncrs(w, monthly), c)
         == if (if monthly then c.MonthRollup? else c.DayRollup?) then Delta(w, c) else 0.0
  {
    var i, o, t, e, p := RollupIncr(w, monthly, InputTokens), RollupIncr(w, monthly, OutputTokens),
                         RollupIncr(w, monthly, TotalTokens), RollupIncr(w, monthly, EventCount),
                         RollupIncr(w, monthly, CostUsd);
    var x, y := RollupIncr(w, monthly, CacheReadTokens), RollupIncr(w, monthly, ReasoningTokens);
    SumForPlus([i, o, t, e, p] + WhenPositive(x), WhenPositive(y), c);
    SumForPlus([i, o, t, e, p], WhenPositive(x), c);
    SumForFive(i, o, t, e, p, c);
    SumForOne(i, c);
    SumForOne(o, c);
    SumForOne(t, c);
    SumForOne(e, c);
    SumForOne(p, c);
  }

  /** A script adds to every counter exactly what the window has for it. */
  lemma {:induction false} ScriptAddsDelta(w: Window, c: Counter)
    ensures SumFor(RedisIncrs(w), c) == Delta(w, c) && SumFor(BudgetIncrs(w), c) == Delta(w, c)
  {
    OrdersAgree(w, c);
    CustomerPart(w, c);
    ModelPart(w, c);
    var v, g, a, b := [VolumeIncr(w)], GlobalIncrs(w), RollupIncrs(w, true), RollupIncrs(w, false);
    SumForPlus(g + v + a, b, c);
    SumForPlus(g + v, a, c);
    SumForPlus(g, v, c);
    SumForOne(VolumeIncr(w), c);
    GlobalPart(w, c);
    RollupPart(w, true, c);
    RollupPart(w, false, c);
  }

  /** The number of a window that a field is for; cache and reasoning tokens count when positive. */
  ghost predicate IsNumber(w: Window, what: Field, n: real) {
    && (what == InputTokens ==> n == w.input as real) && (what == OutputTokens ==> n == w.output as real)
    && (what == TotalTokens ==> n == w.total as real) && (what == EventCount ==> n == w.events as real)
    && (what == CostUsd ==> n == w.cost)
    && (what == CacheReadTokens ==> n == if w.cacheRead > 0 then w.cacheRead as real else 0.0)
    && (what == ReasoningTokens ==> n == if w.reasoning > 0 then w.reasoning as real else 0.0)
  }

  /**
   A script adds each number of the window under its own name: to the counter of its customer, to those of its
   model, tenant and the two rollups that have the name, the total to the month's volume, and to no other key.
   */
  lemma {:induction false} ScriptAddsItsNumbers(
    w: Window, what: Field, n: real, t: Option<nat>, cu: nat, m: nat, month: int, day: int)
    requires IsNumber(w, what, n)
    ensures
      var adds := (c: Counter) => SumFor(RedisIncrs(w), c);
      var tenants, customers := t == w.id.tenant, cu == w.id.customer;
      var models := tenants && customers && m == w.id.model;
      var extra := what == CacheReadTokens || what == ReasoningTokens;
      && adds(Customer(t, cu, what)) == (if tenants && customers then n else 0.0)
      && adds(Model(t, cu, m, what)) == (if models && !extra && what != EventCount then n else 0.0)
      && adds(Global(t, what)) == (if tenants && !extra then n else 0.0)
      && adds(PeriodVolume(t, cu, m, month)) == (if models && month == w.month then w.total as real else 0.0)
      && adds(MonthRollup(cu, month, what)) == (if customers && month == w.month then n else 0.0)
      && adds(DayRollup(cu, day, what)) == (if customers && day == w.day then n else 0.0)
  {
    ScriptAddsDelta(w, Customer(t, cu, what));
    ScriptAddsDelta(w, Model(t, cu, m, what));
    ScriptAddsDelta(w, Global(t, what));
    ScriptAddsDelta(w, PeriodVolume(t, cu, m, month));
    ScriptAddsDelta(w, MonthRollup(cu, month, what));
    ScriptAddsDelta(w, DayRollup(cu, day, what));
    assert Counted(w, what) == n;
  }

  // ---------- the sinks ----------

  ghost predicate Adds(before: Counters, after: Counters, incrs: seq<Incr>) {
    && (forall c :: Get(after, c) == Get(before, c) + SumFor(incrs, c))
    && (forall c :: c in after <==> c in before || exists i :: 0 <= i < |incrs| && incrs[i].key == c)
  }

  /** The same increments, in another order. */
  lemma {:induction false} SameIncrs(w: Window, i: Incr)
    ensures i in RedisIncrs(w) <==> i in BudgetIncrs(w)
  {
  }

  /** From the same counters, both sinks leave the same counters: BudgetEnforcerSink refines RedisSink. */
  lemma {:induction false} SinksAgree(before: Counters, redis: Counters, budget: Counters, w: Window)
    requires Adds(before, redis, RedisIncrs(w)) && Adds(before, budget, BudgetIncrs(w))
    ensures redis == budget
  {
    forall c
      ensures (c in redis <==> c in budget) && Get(redis, c) == Get(budget, c)
    {
      OrdersAgree(w, c);
      SameKey(w, c);
    }
    forall c | c in redis
      ensures c in budget && redis[c] == budget[c]
    {
      assert Get(redis, c) == Get(budget, c);
    }
  }

  lemma {:induction false} SameKey(w: Window, c: Counter)
    ensures (exists i :: 0 <= i < |RedisIncrs(w)| && RedisIncrs(w)[i].key == c)
       <==> (exists i :: 0 <= i < |BudgetIncrs(w)| && BudgetIncrs(w)[i].key == c)
  {
    var a, b := RedisIncrs(w), BudgetIncrs(w);
    if i :| 0 <= i < |a| && a[i].key == c {
      SameIncrs(w, a[i]);
      var j :| 0 <= j < |b| && b[j] == a[i];
      assert b[j].key == c;
    }
    if i :| 0 <= i < |b| && b[i].key == c {
      SameIncrs(w, b[i]);
      var j :| 0 <= j < |a| && a[j] == b[i];
      assert a[j].key == c;
    }
  }

  /** The customers listed for each month. */
  type Index = map<int, set<nat>>

  /** A state of the counters, and the windows applied to it. */
  datatype Store = Store(counters: Counters, applied: set<WindowId>, lastEnd: map<Option<nat>, int>, index: Index)

  const EMPTY := Store(map[], {}, map[], map[])

  function Members(index: Index, month: int): set<nat> {
    if month in index then index[month] else {}
  }

  /** Only BudgetEnforcerSink lists the customers of the month. */
  datatype Sink = Redis | BudgetEnforcer

  /** One delivery: nothing for a window applied before, else its amounts. */
  ghost predicate Delivered(s: Store, w: Window, s': Store, sink: Sink) {
    if w.id in s.applied then s' == s
    else
      && s'.applied == s.applied + {w.id} && s'.lastEnd == s.lastEnd[w.id.tenant := w.end]
      && (forall c :: Get(s'.counters, c) == Get(s.counters, c) + Delta(w, c))
      && forall month :: Members(s'.index, month) ==
           Members(s.index, month) + if sink == BudgetEnforcer && month == w.month then {w.id.customer} else {}
  }

  class UsageCounters {
    var counters: Counters
    var applied: set<WindowId>
    var lastEnd: map<Option<nat>, int>
    var index: Index

    ghost function Contents(): Store
      reads this
    {
      Store(counters, applied, lastEnd, index)
    }

    constructor ()
      ensures Contents() == EMPTY
    {
      counters, applied, lastEnd, index := map[], {}, map[], map[];
    }

    /** INCRBY, INCRBYFLOAT, HINCRBY, one after the other. */
    method Increment(incrs: seq<Incr>)
      modifies this`counters
      ensures Adds(old(counters), counters, incrs)
    {
      for i := 0 to |incrs|
        invariant Adds(old(counters), counters, incrs[..i])
      {
        assert incrs[..i + 1] == incrs[..i] + [incrs[i]];
        var here := if incrs[i].key in counters then counters[incrs[i].key] else 0.0;
        counters := counters[incrs[i].key := here + incrs[i].amount];
      }
      assert incrs[..|incrs|] == incrs;
    }

    /** RedisSink.apply. */
    method RedisSink(w: Window) returns (skipped: bool)
      modifies this
      ensures skipped <==> w.id in old(applied)
      ensures Delivered(old(Contents()), w, Contents(), Redis)
      ensures !skipped ==> Adds(old(counters), counters, RedisIncrs(w))
    {
      if w.id in applied {
        return true;
      }
      applied := applied + {w.id};
      Increment(RedisIncrs(w));
      lastEnd := lastEnd[w.id.tenant := w.end];
      forall c
        ensures Get(counters, c) == Get(old(counters), c) + Delta(w, c)
      {
        ScriptAddsDelta(w, c);
      }
      skipped := false;
    }

    /** The usage counters and the index of BudgetEnforcerSink's script. */
    method BudgetSink(w: Window) returns (skipped: bool)
      modifies this
      ensures skipped <==> w.id in old(applied)
      ensures Delivered(old(Contents()), w, Contents(), BudgetEnforcer)
      ensures !skipped ==> Adds(old(counters), counters, BudgetIncrs(w))
    {
      if w.id in applied {
        return true;
      }
      applied := applied + {w.id};
      Increment(BudgetIncrs(w));
      lastEnd := lastEnd[w.id.tenant := w.end];
      index := index[w.month := (if w.month in index then index[w.month] else {}) + {w.id.customer}];
      forall c
        ensures Get(counters, c) == Get(old(counters), c) + Delta(w, c)
      {
        ScriptAddsDelta(w, c);
      }
      skipped := false;
    }
  }

  // ---------- runs with replays ----------

  /** Was the window of delivery `i` delivered before? */
  ghost predicate Replay(ws: seq<Window>, i: nat)
    requires i < |ws|
  {
    exists j :: 0 <= j < i && ws[j].id == ws[i].id
  }

  /** The deliveries that are no replays. */
  ghost function First(ws: seq<Window>): seq<Window> {
    if ws == [] then []
    else First(ws[..|ws| - 1]) + if Replay(ws, |ws| - 1) then [] else [ws[|ws| - 1]]
  }

  /** A run of one of the sinks: the stores before and after each delivery. */
  ghost predicate Run(stores: seq<Store>, ws: seq<Window>, sink: Sink) {
    && |stores| == |ws| + 1 && stores[0] == EMPTY
    && forall i :: 0 <= i < |ws| ==> Delivered(stores[i], ws[i], stores[i + 1], sink)
  }

  ghost function Total(ws: seq<Window>, c: Counter): real {
    if ws == [] then 0.0 else Total(ws[..|ws| - 1], c) + Delta(ws[|ws| - 1], c)
  }

  ghost function Ids(ws: seq<Window>): set<WindowId> {
    set w | w in ws :: w.id
  }

  lemma {:induction false} AppliedAreIds(stores: seq<Store>, ws: seq<Window>, sink: Sink)
    requires Run(stores, ws, sink)
    ensures stores[|ws|].applied == Ids(ws)
  {
    if ws != [] {
      AppliedAreIds(stores[..|ws|], ws[..|ws| - 1], sink);
      assert ws == ws[..|ws| - 1] + [ws[|ws| - 1]];
    }
  }

  /** After any deliveries, each counter is the sum of what the first delivery of each window has for it. */
  lemma {:induction false} CountersAreFirstDeliveries(stores: seq<Store>, ws: seq<Window>, sink: Sink, c: Counter)
    requires Run(stores, ws, sink)
    ensures Get(stores[|ws|].counters, c) == Total(First(ws), c)
  {
    if ws != [] {
      var n := |ws| - 1;
      CountersAreFirstDeliveries(stores[..n + 1], ws[..n], sink, c);
      AppliedAreIds(stores[..n + 1], ws[..n], sink);
      if !Replay(ws, n) {
        assert First(ws)[..|First(ws)| - 1] == First(ws[..n]);
      } else {
        assert First(ws) == First(ws[..n]);
      }
    }
  }

  lemma {:induction false} FirstSnoc(ws: seq<Window>, w: Window)
    ensures First(ws + [w]) == if w.id in Ids(ws) then First(ws) else First(ws) + [w]
    ensures Ids(ws + [w]) == Ids(ws) + {w.id}
  {
    var all := ws + [w];
    assert all[..|all| - 1] == ws && all[|all| - 1] == w;
  }

  lemma {:induction false} FirstIds(ws: seq<Window>)
    ensures Ids(First(ws)) == Ids(ws)
  {
    if ws != [] {
      var front, w := ws[..|ws| - 1], ws[|ws| - 1];
      FirstIds(front);
      FirstSnoc(front, w);
      FirstSnoc(First(front), w);
      assert ws == front + [w];
    }
  }

  lemma {:induction false} FirstOfMore(ws: seq<Window>, w: Window)
    requires First(First(ws)) == First(ws)
    ensures First(First(ws + [w])) == First(ws + [w])
  {
    FirstIds(ws);
    FirstSnoc(ws, w);
    FirstSnoc(First(ws), w);
  }

  /** Replays are invisible: without them the first deliveries are the same, and so are the counters. */
  lemma {:induction false} FirstOfFirst(ws: seq<Window>)
    ensures First(First(ws)) == First(ws)
  {
    if ws != [] {
      var front := ws[..|ws| - 1];
      FirstOfFirst(front);
      FirstOfMore(front, ws[|ws| - 1]);
      assert ws == front + [ws[|ws| - 1]];
    }
  }

  /** The same state, as far as it can be read. */
  ghost predicate SameStore(s: Store, t: Store) {
    && s.applied == t.applied && s.lastEnd == t.lastEnd
    && (forall c :: Get(s.counters, c) == Get(t.counters, c))
    && (forall month :: Members(s.index, month) == Members(t.index, month))
  }

  lemma {:induction false} SameDelivery(s: Store, t: Store, w: Window, s': Store, t': Store, sink: Sink)
    requires SameStore(s, t) && Delivered(s, w, s', sink) && Delivered(t, w, t', sink) && w.id !in s.applied
    ensures SameStore(s', t')
  {
    forall month
      ensures Members(s'.index, month) == Members(t'.index, month)
    {
      assert Members(s.index, month) == Members(t.index, month);
    }
  }

  lemma {:induction false} RunWithoutLast(stores: seq<Store>, ws: seq<Window>, w: Window, sink: Sink)
    requires Run(stores, ws + [w], sink)
    ensures Run(stores[..|ws| + 1], ws, sink) && Delivered(stores[|ws|], w, stores[|ws| + 1], sink)
  {
    var all := ws + [w];
    assert all[|ws|] == w && forall i :: 0 <= i < |ws| ==> all[i] == ws[i];
  }

  lemma {:induction false} FirstLength(ws: seq<Window>, w: Window)
    ensures |First(ws + [w])| == |First(ws)| + if w.id in Ids(ws) then 0 else 1
  {
    FirstSnoc(ws, w);
  }

  /** One more delivery, a replay or not. */
  lemma {:induction false} OneMore(
    stores: seq<Store>, front: seq<Window>, w: Window, firsts: seq<Store>, n: nat, sink: Sink)
    requires Run(stores, front + [w], sink) && n < |firsts| && SameStore(stores[|front|], firsts[n])
    requires w.id !in Ids(front) ==> n + 1 < |firsts| && Delivered(firsts[n], w, firsts[n + 1], sink)
    ensures SameStore(stores[|front| + 1], if w.id in Ids(front) then firsts[n] else firsts[n + 1])
  {
    RunWithoutLast(stores, front, w, sink);
    AppliedAreIds(stores[..|front| + 1], front, sink);
    if w.id !in Ids(front) {
      SameDelivery(stores[|front|], firsts[n], w, stores[|front| + 1], firsts[n + 1], sink);
    }
  }

  /**
   A run and the run without its replays end in the same state, the last window end included: counters,
   marks and index are those of the first deliveries.
   */
  lemma {:induction false} ReplaysChangeNothing(stores: seq<Store>, ws: seq<Window>, firsts: seq<Store>, sink: Sink)
    requires Run(stores, ws, sink) && Run(firsts, First(ws), sink)
    ensures SameStore(stores[|ws|], firsts[|First(ws)|])
    decreases |ws|, 1
  {
    if ws != [] {
      var front, w := ws[..|ws| - 1], ws[|ws| - 1];
      assert ws == front + [w];
      ReplaysBefore(stores, front, w, firsts, sink);
      var n := |First(front)|;
      OneMore(stores, front, w, firsts, n, sink);
      FirstLength(front, w);
      assert |First(ws)| == if w.id in Ids(front) then n else n + 1;
    }
  }

  lemma {:induction false} ReplaysBefore(
    stores: seq<Store>, front: seq<Window>, w: Window, firsts: seq<Store>, sink: Sink)
    requires Run(stores, front + [w], sink) && Run(firsts, First(front + [w]), sink)
    ensures |First(front)| < |firsts| && SameStore(stores[|front|], firsts[|First(front)|])
    ensures w.id !in Ids(front) ==>
      && |First(front)| + 1 < |firsts|
      && Delivered(firsts[|First(front)|], w, firsts[|First(front)| + 1], sink)
    decreases |front| + 1, 0
  {
    FirstSnoc(front, w);
    RunWithoutLast(stores, front, w, sink);
    if w.id in Ids(front) {
      ReplaysChangeNothing(stores[..|front| + 1], front, firsts, sink);
    } else {
      NewBefore(stores, front, w, firsts, sink);
    }
  }

  lemma {:induction false} NewBefore(
    stores: seq<Store>, front: seq<Window>, w: Window, firsts: seq<Store>, sink: Sink)
    requires Run(stores, front + [w], sink) && Run(firsts, First(front) + [w], sink)
    ensures |firsts| == |First(front)| + 2 && SameStore(stores[|front|], firsts[|First(front)|])
    ensures Delivered(firsts[|First(front)|], w, firsts[|First(front)| + 1], sink)
    decreases |front|, 2
  {
    RunWithoutLast(stores, front, w, sink);
    RunWithoutLast(firsts, First(front), w, sink);
    ReplaysChangeNothing(stores[..|front| + 1], front, firsts[..|First(front)| + 1], sink);
  }

  // ---------- totals ----------

  lemma {:induction false} SumOfZeros<K(!new)>(m: map<K, real>)
    requires forall k :: k in m ==> m[k] == 0.0
    ensures Sum(m) == 0.0
    decreases |m|
  {
    if m != map[] {
      var k :| k in m && Sum(m) == m[k] + Sum(m - {k});
      SumOfZeros(m - {k});
    }
  }

  /** When one value of a map grows by `x`, so does the sum. */
  lemma {:induction false} SumBump<K(!new)>(m: map<K, real>, m': map<K, real>, k: K, x: real)
    requires k in m && m'.Keys == m.Keys && m'[k] == m[k] + x
    requires forall j :: j in m && j != k ==> m'[j] == m[j]
    ensures Sum(m') == Sum(m) + x
  {
    SumSplit(m, k);
    SumSplit(m', k);
    assert m - {k} == m' - {k};
  }

  ghost function PerModel(ws: seq<Window>, models: set<nat>, t: Option<nat>, cu: nat, what: Field): map<nat, real> {
    map m | m in models :: Total(ws, Model(t, cu, m, what))
  }

  /** A customer's counter is the sum of the counters of its models. */
  lemma {:induction false} CustomerIsItsModels(ws: seq<Window>, models: set<nat>, t: Option<nat>, cu: nat, what: Field)
    requires what in {InputTokens, OutputTokens, TotalTokens, CostUsd}
    requires forall w :: w in ws ==> w.id.model in models
    ensures Total(ws, Customer(t, cu, what)) == Sum(PerModel(ws, models, t, cu, what))
  {
    if ws == [] {
      SumOfZeros(PerModel(ws, models, t, cu, what));
    } else {
      var n := |ws| - 1;
      var w := ws[n];
      assert forall x :: x in ws[..n] ==> x in ws;
      CustomerIsItsModels(ws[..n], models, t, cu, what);
      assert w in ws;
      SumBump(PerModel(ws[..n], models, t, cu, what), PerModel(ws, models, t, cu, what), w.id.model,
              Delta(w, Customer(t, cu, what)));
    }
  }

  ghost function PerCustomer(ws: seq<Window>, customers: set<nat>, t: Option<nat>, what: Field): map<nat, real> {
    map cu | cu in customers :: Total(ws, Customer(t, cu, what))
  }

  /** A tenant's global counter is the sum of the counters of its customers. */
  lemma {:induction false} GlobalIsItsCustomers(ws: seq<Window>, customers: set<nat>, t: Option<nat>, what: Field)
    requires what !in {CacheReadTokens, ReasoningTokens}
    requires forall w :: w in ws ==> w.id.customer in customers
    ensures Total(ws, Global(t, what)) == Sum(PerCustomer(ws, customers, t, what))
  {
    if ws == [] {
      SumOfZeros(PerCustomer(ws, customers, t, what));
    } else {
      var n := |ws| - 1;
      var w := ws[n];
      assert forall x :: x in ws[..n] ==> x in ws;
      GlobalIsItsCustomers(ws[..n], customers, t, what);
      assert w in ws;
      SumBump(PerCustomer(ws[..n], customers, t, what), PerCustomer(ws, customers, t, what), w.id.customer,
              Delta(w, Global(t, what)));
    }
  }

  lemma {:induction false} FirstsAreDeliveries(ws: seq<Window>)
    ensures forall w :: w in First(ws) ==> w in ws
  {
    if ws != [] {
      FirstsAreDeliveries(ws[..|ws| - 1]);
      assert ws == ws[..|ws| - 1] + [ws[|ws| - 1]];
    }
  }

  /** After any deliveries with any replays, each customer's totals are the sums of its models. */
  lemma {:induction false} CustomersAddUp(
    stores: seq<Store>, ws: seq<Window>, sink: Sink, models: set<nat>, t: Option<nat>, cu: nat, what: Field)
    requires Run(stores, ws, sink) && what in {InputTokens, OutputTokens, TotalTokens, CostUsd}
    requires forall w :: w in ws ==> w.id.model in models
    ensures var s := stores[|ws|].counters;
      Get(s, Customer(t, cu, what)) == Sum(map m | m in models :: Get(s, Model(t, cu, m, what)))
  {
    var s := stores[|ws|].counters;
    FirstsAreDeliveries(ws);
    CountersAreFirstDeliveries(stores, ws, sink, Customer(t, cu, what));
    CustomerIsItsModels(First(ws), models, t, cu, what);
    var now := map m | m in models :: Get(s, Model(t, cu, m, what));
    forall m | m in models
      ensures now[m] == PerModel(First(ws), models, t, cu, what)[m]
    {
      CountersAreFirstDeliveries(stores, ws, sink, Model(t, cu, m, what));
    }
    assert now == PerModel(First(ws), models, t, cu, what);
  }

  /** And each tenant's globals are the sums of its customers. */
  lemma {:induction false} GlobalsAddUp(
    stores: seq<Store>, ws: seq<Window>, sink: Sink, customers: set<nat>, t: Option<nat>, what: Field)
    requires Run(stores, ws, sink) && what !in {CacheReadTokens, ReasoningTokens}
    requires forall w :: w in ws ==> w.id.customer in customers
    ensures var s := stores[|ws|].counters;
      Get(s, Global(t, what)) == Sum(map cu | cu in customers :: Get(s, Customer(t, cu, what)))
  {
    var s := stores[|ws|].counters;
    FirstsAreDeliveries(ws);
    CountersAreFirstDeliveries(stores, ws, sink, Global(t, what));
    GlobalIsItsCustomers(First(ws), customers, t, what);
    var now := map cu | cu in customers :: Get(s, Customer(t, cu, what));
    forall cu | cu in customers
      ensures now[cu] == PerCustomer(First(ws), customers, t, what)[cu]
    {
      CountersAreFirstDeliveries(stores, ws, sink, Customer(t, cu, what));
    }
    assert now == PerCustomer(First(ws), customers, t, what);
  }

  /** The customer had a window of the month. */
  ghost predicate Billed(ws: seq<Window>, month: int, cu: nat) {
    exists w :: w in ws && w.id.customer == cu && w.month == month
  }

  lemma {:induction false} BilledSnoc(ws: seq<Window>, w: Window, month: int, cu: nat)
    ensures Billed(ws + [w], month, cu) <==> Billed(ws, month, cu) || (w.id.customer == cu && w.month == month)
  {
    assert w in ws + [w];
    assert forall x :: x in ws ==> x in ws + [w];
  }

  lemma {:induction false} IndexStep(ws: seq<Window>, s: Store, w: Window, s': Store, month: int, cu: nat)
    requires Delivered(s, w, s', BudgetEnforcer) && s.applied == Ids(ws)
    requires cu in Members(s.index, month) <==> Billed(First(ws), month, cu)
    ensures cu in Members(s'.index, month) <==> Billed(First(ws + [w]), month, cu)
  {
    FirstSnoc(ws, w);
    BilledSnoc(First(ws), w, month, cu);
    if w.id !in s.applied {
      assert Members(s'.index, month) == Members(s.index, month) + if month == w.month then {w.id.customer} else {};
    }
  }

  /** The index lists exactly the customers that had a window of the month. */
  lemma {:induction false} IndexListsTheCustomers(stores: seq<Store>, ws: seq<Window>, month: int, cu: nat)
    requires Run(stores, ws, BudgetEnforcer)
    ensures cu in Members(stores[|ws|].index, month) <==> Billed(First(ws), month, cu)
  {
    if ws != [] {
      var n := |ws| - 1;
      IndexListsTheCustomers(stores[..n + 1], ws[..n], month, cu);
      AppliedAreIds(stores[..n + 1], ws[..n], BudgetEnforcer);
      IndexStep(ws[..n], stores[n], ws[n], stores[n + 1], month, cu);
      assert ws == ws[..n] + [ws[n]];
    } else {
      assert First(ws) == [] && stores[0].index == map[];
    }
  }

  // ---------- rollups ----------

  ghost function OfTenant(ws: seq<Window>, t: Option<nat>): seq<Window> {
    if ws == [] then []
    else OfTenant(ws[..|ws| - 1], t) + if ws[|ws| - 1].id.tenant == t then [ws[|ws| - 1]] else []
  }

  /** What a counter would hold had only the tenant's windows been delivered. */
  ghost function Alone(ws: seq<Window>, t: Option<nat>, c: Counter): real {
    Total(First(OfTenant(ws, t)), c)
  }

  lemma {:induction false} TotalSnoc(ws: seq<Window>, w: Window, c: Counter)
    ensures Total(ws + [w], c) == Total(ws, c) + Delta(w, c)
  {
    assert (ws + [w])[..|ws|] == ws;
  }

  lemma {:induction false} OfTenantSnoc(ws: seq<Window>, w: Window, t: Option<nat>)
    ensures OfTenant(ws + [w], t) == if w.id.tenant == t then OfTenant(ws, t) + [w] else OfTenant(ws, t)
  {
    assert (ws + [w])[..|ws|] == ws && (ws + [w])[|ws|] == w;
  }

  lemma {:induction false} OfTenantIds(ws: seq<Window>, t: Option<nat>, id: WindowId)
    requires id.tenant == t
    ensures id in Ids(OfTenant(ws, t)) <==> id in Ids(ws)
  {
    if ws != [] {
      var front, w := ws[..|ws| - 1], ws[|ws| - 1];
      OfTenantIds(front, t, id);
      OfTenantSnoc(front, w, t);
      FirstSnoc(front, w);
      FirstSnoc(OfTenant(front, t), w);
      assert ws == front + [w];
    }
  }

  lemma {:induction false} FirstOfTenantStep(ws: seq<Window>, w: Window, t: Option<nat>)
    requires First(OfTenant(ws, t)) == OfTenant(First(ws), t)
    ensures First(OfTenant(ws + [w], t)) == OfTenant(First(ws + [w]), t)
  {
    FirstSnoc(ws, w);
    OfTenantSnoc(ws, w, t);
    OfTenantSnoc(First(ws), w, t);
    if w.id.tenant == t {
      FirstSnoc(OfTenant(ws, t), w);
      OfTenantIds(ws, t, w.id);
    }
  }

  /** The first deliveries of a tenant are the tenant's among the first deliveries. */
  lemma {:induction false} FirstOfTenant(ws: seq<Window>, t: Option<nat>)
    ensures First(OfTenant(ws, t)) == OfTenant(First(ws), t)
  {
    if ws != [] {
      FirstOfTenant(ws[..|ws| - 1], t);
      FirstOfTenantStep(ws[..|ws| - 1], ws[|ws| - 1], t);
      assert ws == ws[..|ws| - 1] + [ws[|ws| - 1]];
    }
  }

  ghost function PerTenant(ws: seq<Window>, tenants: set<Option<nat>>, c: Counter): map<Option<nat>, real> {
    map t | t in tenants :: Total(OfTenant(ws, t), c)
  }

  lemma {:induction false} OneTenantMore(ws: seq<Window>, w: Window, t: Option<nat>, c: Counter)
    ensures Total(OfTenant(ws + [w], t), c) ==
            Total(OfTenant(ws, t), c) + if t == w.id.tenant then Delta(w, c) else 0.0
  {
    OfTenantSnoc(ws, w, t);
    TotalSnoc(OfTenant(ws, t), w, c);
  }

  lemma {:induction false} TotalIsItsTenants(ws: seq<Window>, tenants: set<Option<nat>>, c: Counter)
    requires forall w :: w in ws ==> w.id.tenant in tenants
    ensures Total(ws, c) == Sum(PerTenant(ws, tenants, c))
  {
    if ws == [] {
      SumOfZeros(PerTenant(ws, tenants, c));
    } else {
      var front, w := ws[..|ws| - 1], ws[|ws| - 1];
      assert ws == front + [w] && w in ws;
      TotalIsItsTenants(front, tenants, c);
      forall t
        ensures Total(OfTenant(ws, t), c) ==
                Total(OfTenant(front, t), c) + if t == w.id.tenant then Delta(w, c) else 0.0
      {
        OneTenantMore(front, w, t, c);
      }
      SumBump(PerTenant(front, tenants, c), PerTenant(ws, tenants, c), w.id.tenant, Delta(w, c));
    }
  }

  /**
   After any deliveries with any replays, every counter is the sum over the tenants of what each would
   have alone; a rollup is such a sum over all tenants with a customer of its id.
   */
  lemma {:induction false} RollupsAddTenantsUp(
    stores: seq<Store>, ws: seq<Window>, sink: Sink, tenants: set<Option<nat>>, c: Counter)
    requires Run(stores, ws, sink) && forall w :: w in ws ==> w.id.tenant in tenants
    ensures Get(stores[|ws|].counters, c) == Sum(map t | t in tenants :: Alone(ws, t, c))
  {
    CountersAreFirstDeliveries(stores, ws, sink, c);
    FirstsAreDeliveries(ws);
    TotalIsItsTenants(First(ws), tenants, c);
    var alone := map t | t in tenants :: Alone(ws, t, c);
    forall t | t in tenants
      ensures alone[t] == PerTenant(First(ws), tenants, c)[t]
    {
      FirstOfTenant(ws, t);
    }
    assert alone == PerTenant(First(ws), tenants, c);
  }

  /** Nothing of another tenant's adds to the counter. */
  ghost predicate OnlyOf(ws: seq<Window>, t: Option<nat>, c: Counter) {
    forall w :: w in ws && w.id.tenant != t ==> Delta(w, c) == 0.0
  }

  lemma {:induction false} TotalIsOnesExactlyWhen(ws: seq<Window>, t: Option<nat>, c: Counter)
    requires forall w :: w in ws ==> Delta(w, c) >= 0.0
    ensures Total(ws, c) >= Total(OfTenant(ws, t), c)
    ensures Total(ws, c) == Total(OfTenant(ws, t), c) <==> OnlyOf(ws, t, c)
  {
    if ws != [] {
      var front, w := ws[..|ws| - 1], ws[|ws| - 1];
      assert ws == front + [w] && w in ws;
      assert forall x :: x in ws <==> x in front || x == w;
      TotalIsOnesExactlyWhen(front, t, c);
      OfTenantSnoc(front, w, t);
      TotalSnoc(OfTenant(front, t), w, c);
      assert OnlyOf(ws, t, c) <==> OnlyOf(front, t, c) && (w.id.tenant == t || Delta(w, c) == 0.0);
    }
  }

  /**
   With amounts that are not negative, a counter is one tenant's own exactly when no first delivery of
   another tenant adds to it. The rollups, whose keys have no tenant, meet this only for a customer id
   that no other tenant used in the period.
   */
  lemma {:induction false} RollupIsOneTenantsExactlyWhen(
    stores: seq<Store>, ws: seq<Window>, sink: Sink, t: Option<nat>, c: Counter)
    requires Run(stores, ws, sink) && forall w :: w in ws ==> Delta(w, c) >= 0.0
    ensures Get(stores[|ws|].counters, c) == Alone(ws, t, c) <==> OnlyOf(First(ws), t, c)
  {
    CountersAreFirstDeliveries(stores, ws, sink, c);
    FirstsAreDeliveries(ws);
    FirstOfTenant(ws, t);
    TotalIsOnesExactlyWhen(First(ws), t, c);
  }

  /** The tenant a counter's key names, if it names one. */
  predicate Tenanted(c: Counter, t: Option<nat>) {
    match c
    case Customer(t', _, _) => t' == t
    case Model(t', _, _, _) => t' == t
    case Global(t', _) => t' == t
    case PeriodVolume(t', _, _, _) => t' == t
    case _ => false
  }

  /** Every counter but the rollups always meets it. */
  lemma {:induction false} TenantedCountersAreTheirTenants(
    stores: seq<Store>, ws: seq<Window>, sink: Sink, t: Option<nat>, c: Counter)
    requires Run(stores, ws, sink) && Tenanted(c, t)
    ensures Get(stores[|ws|].counters, c) == Alone(ws, t, c)
  {
    CountersAreFirstDeliveries(stores, ws, sink, c);
    FirstOfTenant(ws, t);
    OwnTotal(First(ws), t, c);
  }

  lemma {:induction false} OwnStep(ws: seq<Window>, w: Window, t: Option<nat>, c: Counter)
    requires Tenanted(c, t) && Total(ws, c) == Total(OfTenant(ws, t), c)
    ensures Total(ws + [w], c) == Total(OfTenant(ws + [w], t), c)
  {
    OfTenantSnoc(ws, w, t);
    TotalSnoc(ws, w, c);
    if w.id.tenant == t {
      TotalSnoc(OfTenant(ws, t), w, c);
    } else {
      assert Delta(w, c) == 0.0;
    }
  }

  lemma {:induction false} OwnTotal(ws: seq<Window>, t: Option<nat>, c: Counter)
    requires Tenanted(c, t)
    ensures Total(ws, c) == Total(OfTenant(ws, t), c)
  {
    if ws != [] {
      OwnTotal(ws[..|ws| - 1], t, c);
      OwnStep(ws[..|ws| - 1], ws[|ws| - 1], t, c);
      assert ws == ws[..|ws| - 1] + [ws[|ws| - 1]];
    }
  }
}

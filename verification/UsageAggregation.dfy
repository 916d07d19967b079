/**
 The window aggregate (UsageAggregate.java): a fold that drops repeated event ids, and the merge of
 two aggregates. The cost of an event is what the catalog said when it was added.
 */
module UsageAggregation {
  import opened Prelude

  /** The numbers an event adds, its cost included; `latency` is added when it is positive. */
  datatype Amounts = Amounts(
    input: int, output: int, cacheRead: int, cacheWrite: int, reasoning: int, embedding: int,
    costMicro: int, events: int, latency: int)

  /** A null id is never taken for a repeat. */
  datatype Event = Event(id: Option<Digest>, tenant: Option<nat>, amounts: Amounts)

  const ZERO := Amounts(0, 0, 0, 0, 0, 0, 0, 0, 0)

  function Plus(a: Amounts, b: Amounts): Amounts {
    Amounts(a.input + b.input, a.output + b.output, a.cacheRead + b.cacheRead, a.cacheWrite + b.cacheWrite,
            a.reasoning + b.reasoning, a.embedding + b.embedding, a.costMicro + b.costMicro,
            a.events + b.events, a.latency + b.latency)
  }

  /** What one event counts for: itself, once, and its latency when positive. */
  function Counted(a: Amounts): Amounts {
    a.(events := 1, latency := if a.latency > 0 then a.latency else 0)
  }

  /** totalTokens, kept beside the categories. */
  function TotalTokens(a: Amounts): int {
    a.input + a.output + a.cacheRead + a.cacheWrite + a.reasoning + a.embedding
  }

  datatype Aggregate = Aggregate(
    sums: Amounts, totalTokens: int, duplicates: nat, seen: set<Digest>, tenant: Option<nat>)

  const FRESH := Aggregate(ZERO, 0, 0, {}, None)

  function Add(a: Aggregate, e: Event): Aggregate {
    if e.id.Some? && e.id.value in a.seen then a.(duplicates := a.duplicates + 1)
    else
      Aggregate(Plus(a.sums, Counted(e.amounts)), a.totalTokens + TotalTokens(e.amounts), a.duplicates,
                if e.id.Some? then a.seen + {e.id.value} else a.seen,
                if e.tenant.Some? then e.tenant else a.tenant)
  }

  function Merge(a: Aggregate, b: Aggregate): Aggregate {
    Aggregate(Plus(a.sums, b.sums), a.totalTokens + b.totalTokens, a.duplicates + b.duplicates, a.seen + b.seen,
              a.tenant)
  }

  /** addEvent over a list, the earliest first. */
  function Fold(events: seq<Event>): Aggregate {
    if events == [] then FRESH else Add(Fold(events[..|events| - 1]), events[|events| - 1])
  }

  /** How many events an aggregate counted. */
  function EventsIn(a: Aggregate): int {
    a.sums.events
  }

  // ---------- the class ----------

  class UsageAggregate {
    var inputTokens: int
    var outputTokens: int
    var cacheReadTokens: int
    var cacheWriteTokens: int
    var reasoningTokens: int
    var embeddingTokens: int
    var totalTokens: int
    var costMicro: int
    var eventCount: int
    var totalLatencyMs: int
    var deduplicatedCount: nat
    var seenEventIds: Option<set<Digest>>
    var tenantId: Option<nat>

    function Seen(): set<Digest>
      reads this
    {
      if seenEventIds.Some? then seenEventIds.value else {}
    }

    ghost function Sums(): Amounts
      reads this
    {
      Amounts(inputTokens, outputTokens, cacheReadTokens, cacheWriteTokens, reasoningTokens, embeddingTokens,
              costMicro, eventCount, totalLatencyMs)
    }

    ghost function Contents(): Aggregate
      reads this
    {
      Aggregate(Sums(), totalTokens, deduplicatedCount, Seen(), tenantId)
    }

    constructor ()
      ensures Contents() == FRESH
    {
      inputTokens, outputTokens, cacheReadTokens, cacheWriteTokens := 0, 0, 0, 0;
      reasoningTokens, embeddingTokens := 0, 0;
      totalTokens, costMicro, eventCount, totalLatencyMs, deduplicatedCount := 0, 0, 0, 0, 0;
      seenEventIds, tenantId := None, None;
    }

    /** addEvent: the ids first, then the counters. */
    method AddEvent(e: Event)
      modifies this
      ensures Contents() == Add(old(Contents()), e)
      ensures e.id.Some? && e.id.value in old(Seen()) ==>
        && Sums() == old(Sums()) && totalTokens == old(totalTokens) && Seen() == old(Seen())
        && tenantId == old(tenantId) && deduplicatedCount == old(deduplicatedCount) + 1
      ensures e.id == None || e.id.value !in old(Seen()) ==>
        && deduplicatedCount == old(deduplicatedCount)
        && Seen() == old(Seen()) + (if e.id.Some? then {e.id.value} else {})
        && tenantId == (if e.tenant.Some? then e.tenant else old(tenantId))
        && inputTokens == old(inputTokens) + e.amounts.input
        && outputTokens == old(outputTokens) + e.amounts.output
        && cacheReadTokens == old(cacheReadTokens) + e.amounts.cacheRead
        && cacheWriteTokens == old(cacheWriteTokens) + e.amounts.cacheWrite
        && reasoningTokens == old(reasoningTokens) + e.amounts.reasoning
        && embeddingTokens == old(embeddingTokens) + e.amounts.embedding
        && totalTokens == old(totalTokens) + e.amounts.input + e.amounts.output + e.amounts.cacheRead
                          + e.amounts.cacheWrite + e.amounts.reasoning + e.amounts.embedding
        && costMicro == old(costMicro) + e.amounts.costMicro
        && eventCount == old(eventCount) + 1
        && totalLatencyMs == old(totalLatencyMs) + (if e.amounts.latency > 0 then e.amounts.latency else 0)
    {
      if e.id.Some? {
        if seenEventIds == None {
          seenEventIds := Some({});
        }
        if e.id.value in seenEventIds.value {
          deduplicatedCount := deduplicatedCount + 1;
          return;
        }
        seenEventIds := Some(seenEventIds.value + {e.id.value});
      }
      if e.tenant.Some? {
        tenantId := e.tenant;
      }
      Count(e.amounts);
    }

    method Count(a: Amounts)
      modifies this`inputTokens, this`outputTokens, this`cacheReadTokens, this`cacheWriteTokens, this`reasoningTokens,
               this`embeddingTokens, this`totalTokens, this`costMicro, this`eventCount, this`totalLatencyMs
      ensures Sums() == Plus(old(Sums()), Counted(a))
      ensures totalTokens == old(totalTokens) + TotalTokens(a)
    {
      inputTokens := inputTokens + a.input;
      outputTokens := outputTokens + a.output;
      cacheReadTokens := cacheReadTokens + a.cacheRead;
      cacheWriteTokens := cacheWriteTokens + a.cacheWrite;
      reasoningTokens := reasoningTokens + a.reasoning;
      embeddingTokens := embeddingTokens + a.embedding;
      totalTokens := totalTokens + TotalTokens(a);
      eventCount := eventCount + 1;
      if a.latency > 0 {
        totalLatencyMs := totalLatencyMs + a.latency;
      }
      costMicro := costMicro + a.costMicro;
    }

    /** merge; `other` may be this very aggregate. */
    method MergeFrom(other: UsageAggregate)
      modifies this
      ensures Contents() == Merge(old(Contents()), old(other.Contents()))
      ensures inputTokens == old(inputTokens) + old(other.inputTokens)
      ensures outputTokens == old(outputTokens) + old(other.outputTokens)
      ensures cacheReadTokens == old(cacheReadTokens) + old(other.cacheReadTokens)
      ensures cacheWriteTokens == old(cacheWriteTokens) + old(other.cacheWriteTokens)
      ensures reasoningTokens == old(reasoningTokens) + old(other.reasoningTokens)
      ensures embeddingTokens == old(embeddingTokens) + old(other.embeddingTokens)
      ensures totalTokens == old(totalTokens) + old(other.totalTokens)
      ensures costMicro == old(costMicro) + old(other.costMicro)
      ensures eventCount == old(eventCount) + old(other.eventCount)
      ensures totalLatencyMs == old(totalLatencyMs) + old(other.totalLatencyMs) && tenantId == old(tenantId)
      ensures deduplicatedCount == old(deduplicatedCount) + old(other.deduplicatedCount)
      ensures Seen() == old(Seen()) + old(other.Seen())
    {
      MergeSeen(other);
      deduplicatedCount := deduplicatedCount + other.deduplicatedCount;
      MergeCounters(other);
    }

    method MergeSeen(other: UsageAggregate)
      modifies this`seenEventIds
      ensures Seen() == old(Seen()) + old(other.Seen())
    {
      if other.seenEventIds.Some? {
        if seenEventIds == None {
          seenEventIds := other.seenEventIds;
        } else {
          seenEventIds := Some(seenEventIds.value + other.seenEventIds.value);
        }
      }
    }

    method MergeCounters(other: UsageAggregate)
      modifies this`inputTokens, this`outputTokens, this`cacheReadTokens, this`cacheWriteTokens, this`reasoningTokens,
               this`embeddingTokens, this`totalTokens, this`costMicro, this`eventCount, this`totalLatencyMs
      ensures Sums() == Plus(old(Sums()), old(other.Sums()))
      ensures totalTokens == old(totalTokens) + old(other.totalTokens)
    {
      inputTokens := inputTokens + other.inputTokens;
      outputTokens := outputTokens + other.outputTokens;
      cacheReadTokens := cacheReadTokens + other.cacheReadTokens;
      cacheWriteTokens := cacheWriteTokens + other.cacheWriteTokens;
      reasoningTokens := reasoningTokens + other.reasoningTokens;
      embeddingTokens := embeddingTokens + other.embeddingTokens;
      totalTokens := totalTokens + other.totalTokens;
      costMicro := costMicro + other.costMicro;
      eventCount := eventCount + other.eventCount;
      totalLatencyMs := totalLatencyMs + other.totalLatencyMs;
    }
  }

  /** A window: every event added in the order it arrives. */
  method Aggregated(events: seq<Event>) returns (a: UsageAggregate)
    ensures fresh(a) && a.Contents() == Fold(events)
  {
    a := new UsageAggregate();
    for i := 0 to |events|
      invariant fresh(a) && a.Contents() == Fold(events[..i])
    {
      assert events[..i + 1][..i] == events[..i];
      a.AddEvent(events[i]);
    }
    assert events[..|events|] == events;
  }

  // ---------- first occurrences ----------

  ghost predicate Repeats(events: seq<Event>, i: nat)
    requires i < |events|
  {
    events[i].id.Some? && exists j :: 0 <= j < i && events[j].id == events[i].id
  }

  ghost function Ids(events: seq<Event>): set<Digest> {
    set e | e in events && e.id.Some? :: e.id.value
  }

  /** The sum over the events that repeat no earlier id. */
  ghost function FirstSum(events: seq<Event>): Amounts {
    if events == [] then ZERO
    else
      var n := |events| - 1;
      if Repeats(events, n) then FirstSum(events[..n]) else Plus(FirstSum(events[..n]), Counted(events[n].amounts))
  }

  lemma {:induction false} IdsSnoc(events: seq<Event>)
    requires events != []
    ensures var n := |events| - 1;
      && Ids(events) == Ids(events[..n]) + (if events[n].id.Some? then {events[n].id.value} else {})
      && (Repeats(events, n) <==> events[n].id.Some? && events[n].id.value in Ids(events[..n]))
  {
    var n := |events| - 1;
    assert events == events[..n] + [events[n]];
    if Repeats(events, n) {
      var j :| 0 <= j < n && events[j].id == events[n].id;
      assert events[j] in events[..n];
    }
    if events[n].id.Some? && events[n].id.value in Ids(events[..n]) {
      var e :| e in events[..n] && e.id == events[n].id;
      var j :| 0 <= j < n && events[..n][j] == e;
      assert events[j].id == events[n].id;
    }
  }

  /** An event is dropped exactly when its id was seen. */
  predicate Dropped(a: Aggregate, e: Event) {
    e.id.Some? && e.id.value in a.seen
  }

  lemma {:induction false} FoldSeesIds(events: seq<Event>)
    ensures Fold(events).seen == Ids(events)
  {
    if events != [] {
      IdsSnoc(events);
      FoldSeesIds(events[..|events| - 1]);
    }
  }

  lemma {:induction false} FoldDropsRepeats(events: seq<Event>)
    requires events != []
    ensures var n := |events| - 1; Dropped(Fold(events[..n]), events[n]) <==> Repeats(events, n)
  {
    IdsSnoc(events);
    FoldSeesIds(events[..|events| - 1]);
  }

  lemma {:induction false} FoldTotals(events: seq<Event>)
    ensures Fold(events).totalTokens == TotalTokens(Fold(events).sums)
  {
    if events != [] {
      var front := events[..|events| - 1];
      FoldTotals(front);
      assert Fold(events) == Add(Fold(front), events[|events| - 1]);
    }
  }

  lemma {:induction false} FoldDuplicates(events: seq<Event>)
    ensures EventsIn(Fold(events)) + Fold(events).duplicates == |events|
  {
    if events != [] {
      var front := events[..|events| - 1];
      FoldDuplicates(front);
      assert Fold(events) == Add(Fold(front), events[|events| - 1]);
    }
  }

  lemma {:induction false} FoldSums(events: seq<Event>)
    ensures Fold(events).sums == FirstSum(events)
  {
    if events != [] {
      var n := |events| - 1;
      FoldSums(events[..n]);
      FoldDropsRepeats(events);
      assert Fold(events) == Add(Fold(events[..n]), events[n]);
    }
  }

  /** The fold is the sum over first occurrences; every other event is counted as a duplicate. */
  lemma {:induction false} FoldCountsFirstOccurrences(events: seq<Event>)
    ensures var a := Fold(events);
      && a.sums == FirstSum(events) && a.totalTokens == TotalTokens(FirstSum(events))
      && a.seen == Ids(events) && a.duplicates == |events| - FirstSum(events).events
  {
    FoldSums(events);
    FoldTotals(events);
    FoldDuplicates(events);
    FoldSeesIds(events);
  }

  // ---------- order ----------

  /** Events with the same id are the same event. */
  ghost predicate Consistent(events: seq<Event>) {
    forall i, j :: 0 <= i < |events| && 0 <= j < |events| && events[i].id.Some? && events[i].id == events[j].id ==>
      events[i] == events[j]
  }

  /** What does not depend on the tenant, which is the last one named. */
  function Counters(a: Aggregate): Aggregate {
    a.(tenant := None)
  }

  /** Two events added in either order leave the same counters, when equal ids mean equal events. */
  lemma {:induction false} AddsCommute(a: Aggregate, d: Event, e: Event)
    requires d.id.Some? && d.id == e.id ==> d == e
    ensures Counters(Add(Add(a, d), e)) == Counters(Add(Add(a, e), d))
  {
    assert a.seen + (if d.id.Some? then {d.id.value} else {}) + (if e.id.Some? then {e.id.value} else {})
        == a.seen + (if e.id.Some? then {e.id.value} else {}) + (if d.id.Some? then {d.id.value} else {});
  }

  lemma {:induction false} AddCountersOnly(a: Aggregate, b: Aggregate, e: Event)
    requires Counters(a) == Counters(b)
    ensures Counters(Add(a, e)) == Counters(Add(b, e))
  {
  }

  lemma {:induction false} FoldLast(events: seq<Event>, i: nat)
    requires i < |events| && Consistent(events)
    ensures Counters(Fold(events)) == Counters(Add(Fold(events[..i] + events[i + 1..]), events[i]))
    decreases |events|
  {
    var n := |events| - 1;
    if i == n {
      assert events[..n] + events[n + 1..] == events[..n];
    } else {
      var rest := events[..i] + events[i + 1..];
      var front := events[..n];
      assert front[..i] + front[i + 1..] == rest[..n - 1] && rest[n - 1] == events[n];
      assert Consistent(front) by {
        assert forall k :: 0 <= k < n ==> front[k] == events[k];
      }
      FoldLast(front, i);
      var base := Fold(rest[..n - 1]);
      AddCountersOnly(Fold(front), Add(base, events[i]), events[n]);
      AddsCommute(base, events[i], events[n]);
    }
  }

  /** The counters do not depend on the order of the events, when equal ids mean equal events. */
  lemma {:induction false} FoldIgnoresOrder(a: seq<Event>, b: seq<Event>)
    requires multiset(a) == multiset(b) && Consistent(a)
    ensures Counters(Fold(a)) == Counters(Fold(b))
    decreases |a|
  {
    if a == [] {
      assert |multiset(b)| == 0;
      assert b == [];
    } else {
      var n := |a| - 1;
      var e := a[n];
      assert e in multiset(b);
      var i :| 0 <= i < |b| && b[i] == e;
      var rest := b[..i] + b[i + 1..];
      RemoveOne(a, b, i);
      ConsistentSame(a, b);
      FoldLast(b, i);
      assert Consistent(a[..n]) by {
        assert forall k :: 0 <= k < n ==> a[..n][k] == a[k];
      }
      FoldIgnoresOrder(a[..n], rest);
      AddCountersOnly(Fold(a[..n]), Fold(rest), e);
    }
  }

  lemma {:induction false} Without(events: seq<Event>, i: nat)
    requires i < |events|
    ensures multiset(events) == multiset(events[..i] + events[i + 1..]) + multiset{events[i]}
  {
    assert events == events[..i] + ([events[i]] + events[i + 1..]);
  }

  lemma {:induction false} RemoveOne(a: seq<Event>, b: seq<Event>, i: nat)
    requires a != [] && i < |b| && b[i] == a[|a| - 1] && multiset(a) == multiset(b)
    ensures multiset(a[..|a| - 1]) == multiset(b[..i] + b[i + 1..])
  {
    var n := |a| - 1;
    Without(a, n);
    Without(b, i);
    assert a[..n] + a[n + 1..] == a[..n];
    assert multiset(a[..n]) == multiset(b) - multiset{b[i]};
  }

  lemma {:induction false} ConsistentSame(a: seq<Event>, b: seq<Event>)
    requires multiset(a) == multiset(b) && Consistent(a)
    ensures Consistent(b)
  {
    forall i, j | 0 <= i < |b| && 0 <= j < |b| && b[i].id.Some? && b[i].id == b[j].id
      ensures b[i] == b[j]
    {
      assert b[i] in multiset(a) && b[j] in multiset(a);
      var k :| 0 <= k < |a| && a[k] == b[i];
      var l :| 0 <= l < |a| && a[l] == b[j];
    }
  }

  // ---------- merge ----------

  /** An event neither side repeats, or only the right one: merging before or after adding it is the same. */
  lemma {:induction false} AddAfterMerge(a: Aggregate, b: Aggregate, e: Event)
    requires e.id.Some? ==> e.id.value !in a.seen
    ensures Counters(Merge(a, Add(b, e))) == Counters(Add(Merge(a, b), e))
  {
    assert e.id.Some? ==> a.seen + (b.seen + {e.id.value}) == a.seen + b.seen + {e.id.value};
  }

  lemma {:induction false} FoldSnoc(events: seq<Event>, e: Event)
    ensures Fold(events + [e]) == Add(Fold(events), e)
  {
    assert (events + [e])[..|events|] == events;
  }

  lemma {:induction false} MergeStep(a: seq<Event>, b: seq<Event>, e: Event)
    requires Counters(Merge(Fold(a), Fold(b))) == Counters(Fold(a + b))
    requires e.id.Some? ==> e.id.value !in Fold(a).seen
    ensures Counters(Merge(Fold(a), Fold(b + [e]))) == Counters(Fold(a + b + [e]))
  {
    var left, right, both := Fold(a), Fold(b), Fold(a + b);
    FoldSnoc(b, e);
    FoldSnoc(a + b, e);
    AddCountersOnly(Merge(left, right), both, e);
    AddAfterMerge(left, right, e);
    assert Counters(Merge(left, Add(right, e))) == Counters(Add(both, e));
  }

  lemma {:induction false} LastApart(a: seq<Event>, b: seq<Event>)
    requires b != []
    ensures b == b[..|b| - 1] + [b[|b| - 1]] && a + b == a + b[..|b| - 1] + [b[|b| - 1]]
  {
  }

  lemma {:induction false} DisjointCountersMerge(a: seq<Event>, b: seq<Event>)
    requires Ids(a) !! Ids(b)
    ensures Counters(Merge(Fold(a), Fold(b))) == Counters(Fold(a + b))
    decreases |b|
  {
    if b == [] {
      assert a + b == a;
    } else {
      var n := |b| - 1;
      IdsSnoc(b);
      FoldSeesIds(a);
      DisjointCountersMerge(a, b[..n]);
      MergeStep(a, b[..n], b[n]);
      LastApart(a, b);
    }
  }

  /** The last tenant named in either list. */
  lemma {:induction false} DisjointTenants(a: seq<Event>, b: seq<Event>)
    requires Ids(a) !! Ids(b)
    ensures Fold(a + b).tenant == if Fold(b).tenant.Some? then Fold(b).tenant else Fold(a).tenant
    decreases |b|
  {
    if b == [] {
      assert a + b == a;
    } else {
      var n := |b| - 1;
      IdsSnoc(b);
      DisjointTenants(a, b[..n]);
      DisjointCountersMerge(a, b[..n]);
      FoldSeesIds(a);
      assert Fold(a + b[..n]).seen == Counters(Fold(a + b[..n])).seen == Fold(a).seen + Fold(b[..n]).seen;
      LastApart(a, b);
      FoldSnoc(a + b[..n], b[n]);
    }
  }

  lemma {:induction false} EventsStep(events: seq<Event>, e: Event)
    ensures EventsIn(Fold(events + [e])) ==
            EventsIn(Fold(events)) + if e.id.Some? && e.id.value in Ids(events) then 0 else 1
  {
    FoldSeesIds(events);
  }

  /** Merging counts every shared id once too often. */
  lemma {:induction false} MergeCountsSharedIdsTwice(a: seq<Event>, b: seq<Event>)
    ensures EventsIn(Merge(Fold(a), Fold(b))) == EventsIn(Fold(a + b)) + |Ids(a) * Ids(b)|
    decreases |b|
  {
    if b == [] {
      assert a + b == a && Ids(a) * Ids(b) == {};
    } else {
      var n := |b| - 1;
      var front, e := b[..n], b[n];
      MergeCountsSharedIdsTwice(a, front);
      IdsSnoc(b);
      EventsStep(front, e);
      EventsStep(a + front, e);
      SharedStep(Ids(a), Ids(front), e.id);
      LastApart(a, b);
    }
  }

  lemma {:induction false} SharedStep(a: set<Digest>, b: set<Digest>, id: Option<Digest>)
    ensures var b' := b + (if id.Some? then {id.value} else {});
      |a * b'| == |a * b| + if id.Some? && id.value in a && id.value !in b then 1 else 0
  {
    if id.Some? {
      assert a * (b + {id.value}) == a * b + if id.value in a then {id.value} else {};
    }
  }

  /** So merging two folds is the fold of both lists exactly when they share no id. */
  lemma {:induction false} MergeAgreesExactlyOnDisjointIds(a: seq<Event>, b: seq<Event>)
    ensures Counters(Merge(Fold(a), Fold(b))) == Counters(Fold(a + b)) <==> Ids(a) !! Ids(b)
  {
    MergeCountsSharedIdsTwice(a, b);
    if Ids(a) !! Ids(b) {
      DisjointCountersMerge(a, b);
    } else {
      var id :| id in Ids(a) && id in Ids(b);
      assert id in Ids(a) * Ids(b);
    }
  }

  /** With the tenant: the merge keeps its own, so the other side must name none or the same. */
  lemma {:induction false} MergeIsConcatenationExactlyWhen(a: seq<Event>, b: seq<Event>)
    ensures Merge(Fold(a), Fold(b)) == Fold(a + b) <==>
      Ids(a) !! Ids(b) && (Fold(b).tenant == None || Fold(b).tenant == Fold(a).tenant)
  {
    MergeAgreesExactlyOnDisjointIds(a, b);
    if Ids(a) !! Ids(b) {
      DisjointTenants(a, b);
    }
  }
}

/**
 TokenEventCustodyBatcher (api/ingestion.py): single accepts coalesced into batches by one worker.
 The event loop runs one step at a time, in any order: a caller queues, gives up or closes, the
 worker takes from the queue, stops collecting, or flushes.
 */
module CustodyBatcher {
  import opened Prelude

  type Context = nat
  type Payload = nat
  type Reply = nat

  datatype Request = Request(id: nat, event: Payload, context: Context)

  datatype Outcome = Answered(result: Reply) | Raised | Cancelled

  /** accept_many: the results of a list of events in a context, or an exception. */
  type Service = (Context, seq<Payload>) -> Option<seq<Reply>>

  // ---------- one flush ----------

  /** The requests of one context, in order. */
  function InContext(rs: seq<Request>, c: Context): seq<Request> {
    if rs == [] then []
    else InContext(rs[..|rs| - 1], c) + if rs[|rs| - 1].context == c then [rs[|rs| - 1]] else []
  }

  function Events(rs: seq<Request>): (es: seq<Payload>)
    ensures |es| == |rs| && forall k :: 0 <= k < |rs| ==> es[k] == rs[k].event
  {
    seq(|rs|, k requires 0 <= k < |rs| => rs[k].event)
  }

  /** The outcome at place `k` of a group. */
  function GroupOutcome(group: seq<Request>, c: Context, service: Service, k: nat): Outcome
    requires k < |group|
  {
    var results := service(c, Events(group));
    if results.Some? && |results.value| == |group| then Answered(results.value[k]) else Raised
  }

  /** The outcome of request `i`: its own place in the call for its own context. */
  function OutcomeOf(rs: seq<Request>, service: Service, i: nat): Outcome
    requires i < |rs|
  {
    PlaceInGroup(rs, i);
    GroupOutcome(InContext(rs, rs[i].context), rs[i].context, service, |InContext(rs[..i], rs[i].context)|)
  }

  lemma {:induction false} PlaceInGroup(rs: seq<Request>, i: nat)
    requires i < |rs|
    ensures var g := InContext(rs, rs[i].context); var k := |InContext(rs[..i], rs[i].context)|;
      k < |g| && g[k] == rs[i]
  {
    if i < |rs| - 1 {
      assert rs[..|rs| - 1][..i] == rs[..i];
      PlaceInGroup(rs[..|rs| - 1], i);
    }
  }

  /** A service that answers each event of a call by itself, in its place. */
  ghost predicate AnswersEach(service: Service, answer: (Context, Payload) -> Reply) {
    forall c: Context, es: seq<Payload> :: service(c, es).Some? && |service(c, es).value| == |es| &&
      forall k :: 0 <= k < |es| ==> service(c, es).value[k] == answer(c, es[k])
  }

  /** With such a service every request has the answer to its own event in its own context, batched or not. */
  lemma {:induction false} OwnAnswer(
    rs: seq<Request>, service: Service, answer: (Context, Payload) -> Reply, i: nat)
    requires i < |rs| && AnswersEach(service, answer)
    ensures OutcomeOf(rs, service, i) == Answered(answer(rs[i].context, rs[i].event))
  {
    PlaceInGroup(rs, i);
    var group := InContext(rs, rs[i].context);
    assert service(rs[i].context, Events(group)).Some?;
  }

  ghost predicate DistinctIds(rs: seq<Request>) {
    forall i, j :: 0 <= i < j < |rs| ==> rs[i].id != rs[j].id
  }

  /** The futures after a flush: those done before stay, the others get the outcome of their request. */
  ghost predicate Resolves(rs: seq<Request>, service: Service, before: map<nat, Outcome>, after: map<nat, Outcome>) {
    && (forall id :: id in after <==> id in before || exists i :: 0 <= i < |rs| && rs[i].id == id)
    && (forall id :: id in before ==> after[id] == before[id])
    && (forall i :: 0 <= i < |rs| && rs[i].id !in before ==>
          rs[i].id in after && after[rs[i].id] == OutcomeOf(rs, service, i))
  }

  /** The contexts in order of their first request. */
  function Contexts(rs: seq<Request>): seq<Context> {
    if rs == [] then []
    else
      var before := Contexts(rs[..|rs| - 1]);
      if rs[|rs| - 1].context in before then before else before + [rs[|rs| - 1].context]
  }

  lemma {:induction false} ContextsAre(rs: seq<Request>)
    ensures forall c :: c in Contexts(rs) <==> exists i :: 0 <= i < |rs| && rs[i].context == c
    ensures forall g, h :: 0 <= g < h < |Contexts(rs)| ==> Contexts(rs)[g] != Contexts(rs)[h]
  {
    if rs != [] {
      var n := |rs| - 1;
      ContextsAre(rs[..n]);
      forall c | c in Contexts(rs)
        ensures exists i :: 0 <= i < |rs| && rs[i].context == c
      {
        if c in Contexts(rs[..n]) {
          var i :| 0 <= i < n && rs[..n][i].context == c;
          assert rs[i].context == c;
        } else {
          assert rs[n].context == c;
        }
      }
      forall i | 0 <= i < |rs|
        ensures rs[i].context in Contexts(rs)
      {
        assert i < n ==> rs[..n][i].context == rs[i].context;
      }
    }
  }

  /** The members of a group are the requests of its context, each at its place. */
  lemma {:induction false} GroupMembers(rs: seq<Request>, c: Context, k: nat)
    requires k < |InContext(rs, c)|
    ensures exists i ::
              0 <= i < |rs| && rs[i].context == c && |InContext(rs[..i], c)| == k && rs[i] == InContext(rs, c)[k]
  {
    var n := |rs| - 1;
    if k < |InContext(rs[..n], c)| {
      GroupMembers(rs[..n], c, k);
      var front := rs[..n];
      var own := InContext(front, c);
      var i :| 0 <= i < n && front[i].context == c && |InContext(front[..i], c)| == k && front[i] == own[k];
      assert rs[..n][..i] == rs[..i];
      assert rs[i] == InContext(rs, c)[k];
    } else {
      assert rs[n].context == c;
    }
  }

  /** The futures once the groups of the contexts in `served` are done. */
  ghost predicate ResolvedFor(
    rs: seq<Request>, service: Service, before: map<nat, Outcome>, after: map<nat, Outcome>, served: set<Context>)
  {
    && (forall id :: id in after <==>
          id in before || exists i :: 0 <= i < |rs| && rs[i].context in served && rs[i].id == id)
    && (forall id :: id in before ==> after[id] == before[id])
    && (forall i :: 0 <= i < |rs| && rs[i].context in served && rs[i].id !in before ==>
          rs[i].id in after && after[rs[i].id] == OutcomeOf(rs, service, i))
  }

  /** Resolve the futures of one group. */
  method ResolveGroup(group: seq<Request>, results: Option<seq<Reply>>, futures: map<nat, Outcome>)
    returns (after: map<nat, Outcome>)
    requires DistinctIds(group)
    ensures forall id :: id in after <==> id in futures || exists k :: 0 <= k < |group| && group[k].id == id
    ensures forall id :: id in futures ==> after[id] == futures[id]
    ensures forall k :: 0 <= k < |group| && group[k].id !in futures ==>
              after[group[k].id] ==
                if results.Some? && |results.value| == |group| then Answered(results.value[k]) else Raised
  {
    after := futures;
    for k := 0 to |group|
      invariant forall id :: id in after <==> id in futures || exists l :: 0 <= l < k && group[l].id == id
      invariant forall id :: id in futures ==> after[id] == futures[id]
      invariant forall l :: 0 <= l < k && group[l].id !in futures ==>
                  after[group[l].id] ==
                    if results.Some? && |results.value| == |group| then Answered(results.value[l]) else Raised
    {
      if group[k].id !in after {
        var outcome := if results.Some? && |results.value| == |group| then Answered(results.value[k]) else Raised;
        after := after[group[k].id := outcome];
      }
    }
  }

  /** The grouping loop of _flush. */
  method GroupByContext(rs: seq<Request>) returns (order: seq<Context>, groups: map<Context, seq<Request>>)
    ensures order == Contexts(rs) && (forall c :: c in groups <==> c in order)
    ensures forall c :: c in groups ==> groups[c] == InContext(rs, c)
  {
    order, groups := [], map[];
    for i := 0 to |rs|
      invariant order == Contexts(rs[..i]) && (forall c :: c in groups <==> c in order)
      invariant forall c :: c in groups ==> groups[c] == InContext(rs[..i], c)
    {
      assert rs[..i + 1][..i] == rs[..i];
      var c := rs[i].context;
      if c !in groups {
        order, groups := order + [c], groups[c := []];
        EmptyGroup(rs[..i], c);
      }
      groups := groups[c := groups[c] + [rs[i]]];
    }
    assert rs[..|rs|] == rs;
  }

  lemma {:induction false} EmptyGroup(rs: seq<Request>, c: Context)
    requires c !in Contexts(rs)
    ensures InContext(rs, c) == []
  {
    if rs != [] {
      EmptyGroup(rs[..|rs| - 1], c);
    }
  }

  lemma {:induction false} GroupIsDistinct(rs: seq<Request>, c: Context)
    requires DistinctIds(rs)
    ensures DistinctIds(InContext(rs, c))
    ensures forall k :: 0 <= k < |InContext(rs, c)| ==> InContext(rs, c)[k] in rs
  {
    if rs != [] {
      var n := |rs| - 1;
      GroupIsDistinct(rs[..n], c);
      forall k | 0 <= k < |InContext(rs[..n], c)|
        ensures InContext(rs[..n], c)[k].id != rs[n].id && InContext(rs[..n], c)[k] in rs
      {
        var j :| 0 <= j < n && rs[..n][j] == InContext(rs[..n], c)[k];
        assert rs[j] == rs[..n][j];
      }
    }
  }

  /** The state of the flush after the groups of the first `g` contexts. */
  ghost predicate Served(rs: seq<Request>, service: Service, futures: map<nat, Outcome>, order: seq<Context>, g: nat,
                         after: map<nat, Outcome>, calls: seq<(Context, seq<Payload>)>)
  {
    && g <= |order|
    && ResolvedFor(rs, service, futures, after, Elements(order[..g]))
    && calls == Calls(rs, order[..g])
  }

  /**
   _flush: one call per context, with that context's events in order, and every future that was not
   done gets the outcome of its own event.
   */
  method Flush(rs: seq<Request>, service: Service, futures: map<nat, Outcome>)
    returns (after: map<nat, Outcome>, calls: seq<(Context, seq<Payload>)>)
    requires DistinctIds(rs)
    ensures Resolves(rs, service, futures, after)
    ensures calls == Calls(rs, Contexts(rs))
  {
    var order, groups := GroupByContext(rs);
    ContextsDiffer(rs);
    after, calls := futures, [];
    assert order[..0] == [];
    for g := 0 to |order|
      invariant Served(rs, service, futures, order, g, after, calls)
    {
      after, calls := ServeGroup(rs, order, g, groups[order[g]], service, futures, after, calls);
    }
    AllServed(rs, service, futures, after, calls, order);
  }

  lemma {:induction false} ContextsDiffer(rs: seq<Request>)
    ensures forall g, h :: 0 <= g < h < |Contexts(rs)| ==> Contexts(rs)[g] != Contexts(rs)[h]
  {
    ContextsAre(rs);
  }

  /** The calls for some contexts, in their order. */
  function Calls(rs: seq<Request>, order: seq<Context>): seq<(Context, seq<Payload>)> {
    if order == [] then []
    else Calls(rs, order[..|order| - 1]) + [(order[|order| - 1], Events(InContext(rs, order[|order| - 1])))]
  }

  lemma {:induction false} CallsSnoc(rs: seq<Request>, order: seq<Context>, g: nat)
    requires g < |order|
    ensures Calls(rs, order[..g + 1]) == Calls(rs, order[..g]) + [(order[g], Events(InContext(rs, order[g])))]
  {
    assert order[..g + 1][..g] == order[..g];
  }

  /** One call of accept_many, and the futures of its group. */
  method ServeGroup(ghost rs: seq<Request>, order: seq<Context>, g: nat, group: seq<Request>, service: Service,
                    ghost futures: map<nat, Outcome>, before: map<nat, Outcome>, calls: seq<(Context, seq<Payload>)>)
    returns (after: map<nat, Outcome>, calls': seq<(Context, seq<Payload>)>)
    requires DistinctIds(rs) && g < |order| && group == InContext(rs, order[g])
    requires forall i, j :: 0 <= i < j < |order| ==> order[i] != order[j]
    requires Served(rs, service, futures, order, g, before, calls)
    ensures Served(rs, service, futures, order, g + 1, after, calls')
  {
    ElementsSnoc(order, g);
    CallsSnoc(rs, order, g);
    GroupIsDistinct(rs, order[g]);
    after := ResolveGroup(group, service(order[g], Events(group)), before);
    calls' := calls + [(order[g], Events(group))];
    GroupDone(rs, service, futures, before, after, Elements(order[..g]), order[g]);
  }

  lemma {:induction false} AllServed(
    rs: seq<Request>, service: Service, futures: map<nat, Outcome>, after: map<nat, Outcome>,
    calls: seq<(Context, seq<Payload>)>, order: seq<Context>)
    requires order == Contexts(rs) && Served(rs, service, futures, order, |order|, after, calls)
    ensures Resolves(rs, service, futures, after) && calls == Calls(rs, order)
  {
    assert order[..|order|] == order;
    ContextsAre(rs);
    forall i | 0 <= i < |rs|
      ensures rs[i].context in Elements(order)
    {
      assert rs[i].context in order;
    }
  }

  lemma {:induction false} GroupDone(rs: seq<Request>, service: Service, futures: map<nat, Outcome>,
                                     before: map<nat, Outcome>, after: map<nat, Outcome>,
                                     served: set<Context>, c: Context)
    requires DistinctIds(rs) && c !in served && ResolvedFor(rs, service, futures, before, served)
    requires var group := InContext(rs, c);
      && (forall id :: id in after <==> id in before || exists k :: 0 <= k < |group| && group[k].id == id)
      && (forall id :: id in before ==> after[id] == before[id])
      && (forall k :: 0 <= k < |group| && group[k].id !in before ==>
            group[k].id in after && after[group[k].id] == GroupOutcome(group, c, service, k))
    ensures ResolvedFor(rs, service, futures, after, served + {c})
  {
    var group := InContext(rs, c);
    forall i | 0 <= i < |rs| && rs[i].context in served + {c} && rs[i].id !in futures
      ensures rs[i].id in after && after[rs[i].id] == OutcomeOf(rs, service, i)
    {
      if rs[i].context == c {
        PlaceInGroup(rs, i);
      }
    }
    forall id
      ensures id in after <==>
              id in futures || exists i :: 0 <= i < |rs| && rs[i].context in served + {c} && rs[i].id == id
    {
      GroupIds(rs, c, id);
    }
  }

  lemma {:induction false} GroupIds(rs: seq<Request>, c: Context, id: nat)
    ensures (exists k :: 0 <= k < |InContext(rs, c)| && InContext(rs, c)[k].id == id)
       <==> (exists i :: 0 <= i < |rs| && rs[i].context == c && rs[i].id == id)
  {
    var group := InContext(rs, c);
    if k :| 0 <= k < |group| && group[k].id == id {
      GroupMembers(rs, c, k);
    }
    if i :| 0 <= i < |rs| && rs[i].context == c && rs[i].id == id {
      PlaceInGroup(rs, i);
      assert group[|InContext(rs[..i], c)|].id == id;
    }
  }
}

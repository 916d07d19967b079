/**
 The two entry points of api/ingestion.py as they run, over the identity buckets: accept for one
 event, accept_many with its result, alias and outcome lists.

 `broker` is how each publication ends, by index of its event, and `calls` how each of the three
 calls to Redis after the claim ends: finalize, mark and release, each answered or not, each reaching
 whichever buckets it reached. `cleanup` is what each bucket happens to clean up during the claim. What
 the methods are proved against is in BatchCustody: the answer at each index, the messages handed to
 the dispatcher, and the identities left.

 accept_many goes through its lists three times: it answers what the claim settled and keeps what it
 owns; it publishes what it owns and sorts the outcomes; it finalizes, marks and releases. Each loop
 has a method for one turn, and a predicate for how far it has come.
 */
module CustodyService {
  import opened Prelude
  import opened IdentityStore
  import opened BatchCustody
  import Ox = Outbox

  /** The first event of each id, in order. */
  ghost predicate LeaderList(es: seq<Event>, js: seq<nat>) {
    Ascending(es, js) && forall j: nat :: j in js <==> j < |es| && First(es, j) == j
  }

  /** The events the batch owns, in order. */
  ghost predicate OwnedList(v: View, es: seq<Event>, js: seq<nat>) {
    Ascending(es, js) && forall j: nat :: j in js <==> j < |es| && Owned(v, es, j)
  }

  /** What a batch does with an event: not sent at all, or sent with one of three outcomes. */
  datatype Kind = NotSent | Delivered | Failed | Unsure

  function KindOfDelivery(d: Delivery): Kind {
    match d
    case Acked => Delivered
    case TimedOut => Unsure
    case _ => Failed
  }

  ghost function KindOf(v: View, es: seq<Event>, broker: nat -> Delivery, j: nat): Kind {
    if j < |es| && Owned(v, es, j) then KindOfDelivery(broker(j)) else NotSent
  }

  /** The events of one kind among the first `n`, in order. */
  ghost predicate Listed(v: View, es: seq<Event>, broker: nat -> Delivery, kind: Kind, n: nat, js: seq<nat>) {
    Ascending(es, js) && forall j: nat :: j in js <==> j < n && KindOf(v, es, broker, j) == kind
  }

  function ItemsAt(es: seq<Event>, js: seq<nat>): (items: seq<Item>)
    requires forall k :: 0 <= k < |js| ==> js[k] < |es|
    ensures |items| == |js| && forall k :: 0 <= k < |js| ==> items[k] == ItemOf(es[js[k]])
  {
    seq(|js|, k requires 0 <= k < |js| => ItemOf(es[js[k]]))
  }

  lemma {:induction false} LeadersAreListed(es: seq<Event>)
    ensures LeaderList(es, Leaders(es, |es|))
  {
    LeadersAre(es, |es|);
    assert forall k :: 0 <= k < |Leaders(es, |es|)| ==> Leaders(es, |es|)[k] in Leaders(es, |es|);
  }

  lemma {:induction false} LeadersAreDistinct(es: seq<Event>, js: seq<nat>)
    requires forall k :: 0 <= k < |js| ==> js[k] < |es| && First(es, js[k]) == js[k]
    requires forall a, b :: 0 <= a < b < |js| ==> js[a] < js[b]
    ensures DistinctFields(ItemsAt(es, js))
  {
    forall a, b | 0 <= a < b < |js|
      ensures es[js[a]].eventId != es[js[b]].eventId
    {
      assert IsFirst(es, js[b], js[b]);
    }
  }

  function MessagesAt(es: seq<Event>, js: seq<nat>): (ms: seq<Message>)
    requires forall k :: 0 <= k < |js| ==> js[k] < |es|
    ensures |ms| == |js| && forall k :: 0 <= k < |js| ==> ms[k] == MessageOf(es[js[k]])
  {
    seq(|js|, k requires 0 <= k < |js| => MessageOf(es[js[k]]))
  }

  lemma {:induction false} AscendingLength(es: seq<Event>, js: seq<nat>)
    requires Ascending(es, js)
    ensures |js| <= |es|
  {
    if |js| > 0 {
      AtLeastItsPosition(es, js, |js| - 1);
    }
  }

  lemma {:induction false} AtLeastItsPosition(es: seq<Event>, js: seq<nat>, k: nat)
    requires Ascending(es, js) && k < |js|
    ensures js[k] >= k
  {
    if k > 0 {
      AtLeastItsPosition(es, js, k - 1);
    }
  }

  lemma {:induction false} RestIsOwned(v: View, es: seq<Event>, js: seq<nat>, rest: seq<nat>)
    requires OwnedList(v, es, js) && es != []
    requires js == rest + if |es| - 1 in js then [|es| - 1] else []
    ensures OwnedList(v, es[..|es| - 1], rest)
  {
    var n := |es| - 1;
    forall k | 0 <= k < |rest|
      ensures rest[k] == js[k] && rest[k] < n
    {
      assert js[k] in js;
      assert n in js ==> js[k] < js[|rest|];
    }
    assert n !in rest;
    forall j: nat
      ensures j in rest <==> j < n && Owned(v, es[..n], j)
    {
      assert j in js <==> j in rest || (j == n && n in js);
      if j < n {
        FirstInPrefix(es, n, j);
      }
    }
  }

  /** Without its last event, a batch owns what it owned of the rest. */
  lemma {:induction false} OwnedRest(v: View, es: seq<Event>, js: seq<nat>) returns (rest: seq<nat>)
    requires OwnedList(v, es, js) && es != []
    ensures OwnedList(v, es[..|es| - 1], rest)
    ensures js == rest + if Owned(v, es, |es| - 1) then [|es| - 1] else []
  {
    var n := |es| - 1;
    if n in js {
      var k :| 0 <= k < |js| && js[k] == n;
      assert js[k] <= js[|js| - 1];
      rest := js[..|js| - 1];
    } else {
      rest := js;
    }
    RestIsOwned(v, es, js, rest);
  }

  lemma {:induction false} OwnedMessages(v: View, es: seq<Event>, js: seq<nat>)
    requires OwnedList(v, es, js)
    ensures MessagesAt(es, js) == BatchMessages(v, es) && SentFor(es, js, MessagesAt(es, js))
    decreases |es|
  {
    if es == [] {
      AscendingLength(es, js);
    } else {
      var n := |es| - 1;
      var rest := OwnedRest(v, es, js);
      OwnedMessages(v, es[..n], rest);
      assert MessagesAt(es, js) == MessagesAt(es[..n], rest) + if Owned(v, es, n) then [MessageOf(es[n])] else [];
    }
  }

  // ---------- the answering loops ----------

  /** How far a loop over an ascending list has come: everything below this index is dealt with. */
  ghost function Bound(js: seq<nat>, k: nat, total: nat): nat {
    if k < |js| then js[k] else total
  }

  lemma {:induction false} NothingBetween(es: seq<Event>, js: seq<nat>, k: nat)
    requires Ascending(es, js)
    ensures forall j: nat :: j < Bound(js, 0, |es|) ==> j !in js
    ensures k < |js| ==> js[k] in js && js[k] < Bound(js, k + 1, |es|)
    ensures k < |js| ==> forall j: nat :: js[k] < j < Bound(js, k + 1, |es|) ==> j !in js
  {
    forall j: nat | j in js
      ensures j >= Bound(js, 0, |es|)
      ensures k < |js| && js[k] < j ==> j >= Bound(js, k + 1, |es|)
    {
      var m :| 0 <= m < |js| && js[m] == j;
      assert 0 < m ==> js[0] < js[m];
      assert k + 1 < m ==> js[k + 1] < js[m];
      assert k < |js| && m < k ==> js[m] < js[k];
    }
    assert k + 1 < |js| ==> js[k] < js[k + 1];
  }

  /** Of the leaders below `n`, the settled ones are done and the others listed as owned. */
  ghost predicate Split(v: View, es: seq<Event>, n: nat, done: set<nat>, owned: seq<nat>) {
    && n <= |es| && Ascending(es, owned)
    && (forall j: nat :: j in done <==> j < n && First(es, j) == j && es[j].eventId in v)
    && (forall j: nat :: j in owned <==> j < n && First(es, j) == j && es[j].eventId !in v)
  }

  lemma {:induction false} SplitStep(v: View, es: seq<Event>, n: nat, n': nat, done: set<nat>, owned: seq<nat>)
    requires Split(v, es, n, done, owned) && n < n' <= |es|
    requires First(es, n) == n && forall j: nat :: n < j < n' ==> First(es, j) != j
    ensures n !in done
    ensures es[n].eventId in v ==> Split(v, es, n', done + {n}, owned)
    ensures es[n].eventId !in v ==> Split(v, es, n', done, owned + [n])
  {
    assert forall k :: 0 <= k < |owned| ==> owned[k] in owned;
  }

  /** The claim's verdict on the first event of each id. */
  ghost predicate LeaderStates(v: View, es: seq<Event>, unique: seq<nat>, states: seq<Claim>) {
    |states| == |unique| && forall k :: 0 <= k < |unique| ==>
      unique[k] < |es| && states[k] == Verdict(EntryAt(v, es[unique[k]].eventId), es[unique[k]].fp)
  }

  lemma {:induction false} OthersStep(
    v: View, es: seq<Event>, unique: seq<nat>, k: nat, done: set<nat>, owned: seq<nat>)
    requires LeaderList(es, unique) && k < |unique| && Split(v, es, unique[k], done, owned)
    ensures var j, n := unique[k], Bound(unique, k + 1, |es|);
      && j < |es| && First(es, j) == j && j !in done
      && if es[j].eventId in v then Split(v, es, n, done + {j}, owned) else Split(v, es, n, done, owned + [j])
  {
    NothingBetween(es, unique, k);
    SplitStep(v, es, unique[k], Bound(unique, k + 1, |es|), done, owned);
  }

  /** Answer what the claim settled; the rest is owned. */
  method AnswerOthers(es: seq<Event>, rows: seq<Option<Row>>, unique: seq<nat>, aliases: map<nat, seq<nat>>,
                      states: seq<Claim>, ghost v: View, ghost broker: nat -> Delivery, ghost finalized: bool)
    returns (after: seq<Option<Row>>, owned: seq<nat>, ghost done: set<nat>)
    requires Filled(es, rows, Wanted(v, es, broker, finalized), {})
    requires LeaderList(es, unique) && AliasesUpTo(es, |es|, aliases) && LeaderStates(v, es, unique, states)
    ensures Filled(es, after, Wanted(v, es, broker, finalized), done)
    ensures OwnedList(v, es, owned) && Settled(v, es, done)
  {
    NothingBetween(es, unique, 0);
    after, owned, done := rows, [], {};
    for k := 0 to |unique|
      invariant Filled(es, after, Wanted(v, es, broker, finalized), done)
      invariant Split(v, es, Bound(unique, k, |es|), done, owned)
    {
      after, owned, done := AnswerOther(es, after, unique, k, aliases, states[k], owned, v, broker, finalized, done);
    }
    SplitIsDone(v, es, done, owned);
  }

  /** One turn of the loop: a settled leader is answered with its aliases, an absent one is owned. */
  method AnswerOther(es: seq<Event>, rows: seq<Option<Row>>, unique: seq<nat>, k: nat, aliases: map<nat, seq<nat>>,
                     state: Claim, owned: seq<nat>, ghost v: View, ghost broker: nat -> Delivery,
                     ghost finalized: bool, ghost done: set<nat>)
    returns (after: seq<Option<Row>>, owned': seq<nat>, ghost done': set<nat>)
    requires LeaderList(es, unique) && k < |unique| && AliasesUpTo(es, |es|, aliases)
    requires Filled(es, rows, Wanted(v, es, broker, finalized), done) && Split(v, es, unique[k], done, owned)
    requires state == Verdict(EntryAt(v, es[unique[k]].eventId), es[unique[k]].fp)
    ensures Filled(es, after, Wanted(v, es, broker, finalized), done')
    ensures Split(v, es, Bound(unique, k + 1, |es|), done', owned')
  {
    var j := unique[k];
    OthersStep(v, es, unique, k, done, owned);
    if state == Owner {
      after, owned', done' := rows, owned + [j], done;
    } else {
      var answer := AnswerOf(state);
      after := AnswerLeader(es, rows, j, aliases, answer, answer, v, broker, finalized, done);
      owned', done' := owned, done + {j};
    }
  }

  lemma {:induction false} SplitIsDone(v: View, es: seq<Event>, done: set<nat>, owned: seq<nat>)
    requires Split(v, es, |es|, done, owned)
    ensures OwnedList(v, es, owned) && Settled(v, es, done)
  {
  }

  /** The leaders answered once the owned events below `n` are dealt with: acknowledged ones wait. */
  ghost predicate AnsweredBelow(
    v: View, es: seq<Event>, broker: nat -> Delivery, n: nat, before: set<nat>, done: set<nat>)
  {
    forall j: nat :: j in done <==> j in before || (j < n && KindOf(v, es, broker, j) in {Failed, Unsure})
  }

  ghost predicate SortedUpTo(v: View, es: seq<Event>, broker: nat -> Delivery, n: nat,
                             accepted: seq<nat>, failed: seq<nat>, uncertain: seq<nat>)
  {
    && Listed(v, es, broker, Delivered, n, accepted)
    && Listed(v, es, broker, Failed, n, failed)
    && Listed(v, es, broker, Unsure, n, uncertain)
  }

  lemma {:induction false} AscendingSnoc(es: seq<Event>, js: seq<nat>, n: nat)
    requires Ascending(es, js) && n < |es| && forall j: nat :: j in js ==> j < n
    ensures Ascending(es, js + [n])
  {
    assert forall k :: 0 <= k < |js| ==> js[k] in js;
  }

  /** Between consecutive owned events nothing is sent, so the lists only gain the event in hand. */
  lemma {:induction false} ListStep(
    v: View, es: seq<Event>, broker: nat -> Delivery, kind: Kind, n: nat, n': nat, js: seq<nat>)
    requires kind != NotSent && Listed(v, es, broker, kind, n, js) && n < n' <= |es|
    requires forall j: nat :: n < j < n' ==> KindOf(v, es, broker, j) == NotSent
    ensures Listed(v, es, broker, kind, n', if KindOf(v, es, broker, n) == kind then js + [n] else js)
  {
    var after := if KindOf(v, es, broker, n) == kind then js + [n] else js;
    AscendingSnoc(es, js, n);
    forall j: nat
      ensures j in after <==> j < n' && KindOf(v, es, broker, j) == kind
    {
      assert j in js + [n] <==> j in js || j == n;
    }
  }

  lemma {:induction false} SortedStep(
    v: View, es: seq<Event>, broker: nat -> Delivery, owned: seq<nat>, k: nat,
    accepted: seq<nat>, failed: seq<nat>, uncertain: seq<nat>)
    requires OwnedList(v, es, owned) && k < |owned|
    requires SortedUpTo(v, es, broker, owned[k], accepted, failed, uncertain)
    ensures
      var j, n, kind := owned[k], Bound(owned, k + 1, |es|), KindOf(v, es, broker, owned[k]);
      && SortedUpTo(v, es, broker, n,
           if kind == Delivered then accepted + [j] else accepted,
           if kind == Failed then failed + [j] else failed,
           if kind == Unsure then uncertain + [j] else uncertain)
  {
    var j, n := owned[k], Bound(owned, k + 1, |es|);
    NothingBetween(es, owned, k);
    assert j in owned && forall i: nat :: j < i < n ==> KindOf(v, es, broker, i) == NotSent;
    ListStep(v, es, broker, Delivered, j, n, accepted);
    ListStep(v, es, broker, Failed, j, n, failed);
    ListStep(v, es, broker, Unsure, j, n, uncertain);
  }

  lemma {:induction false} AnsweredStep(
    v: View, es: seq<Event>, broker: nat -> Delivery, owned: seq<nat>, k: nat, before: set<nat>, done: set<nat>)
    requires OwnedList(v, es, owned) && k < |owned| && owned[k] !in before
    requires AnsweredBelow(v, es, broker, owned[k], before, done)
    ensures
      var j, n, kind := owned[k], Bound(owned, k + 1, |es|), KindOf(v, es, broker, owned[k]);
      && j < |es| && Owned(v, es, j) && j !in done
      && AnsweredBelow(v, es, broker, n, before, if kind == Delivered then done else done + {j})
  {
    NothingBetween(es, owned, k);
  }

  ghost predicate SortedSoFar(v: View, es: seq<Event>, broker: nat -> Delivery, n: nat,
                              accepted: seq<nat>, failed: seq<nat>, uncertain: seq<nat>,
                              before: set<nat>, done: set<nat>)
  {
    SortedUpTo(v, es, broker, n, accepted, failed, uncertain) && AnsweredBelow(v, es, broker, n, before, done)
  }

  lemma {:induction false} FailuresStep(
    v: View, es: seq<Event>, broker: nat -> Delivery, owned: seq<nat>, k: nat,
    accepted: seq<nat>, failed: seq<nat>, uncertain: seq<nat>, before: set<nat>, done: set<nat>)
    requires OwnedList(v, es, owned) && k < |owned| && owned[k] !in before
    requires SortedSoFar(v, es, broker, owned[k], accepted, failed, uncertain, before, done)
    ensures
      var j, n, kind := owned[k], Bound(owned, k + 1, |es|), KindOf(v, es, broker, owned[k]);
      && j < |es| && Owned(v, es, j) && j !in done && kind == KindOfDelivery(broker(j))
      && SortedSoFar(v, es, broker, n,
           if kind == Delivered then accepted + [j] else accepted,
           if kind == Failed then failed + [j] else failed,
           if kind == Unsure then uncertain + [j] else uncertain,
           before, if kind == Delivered then done else done + {j})
  {
    SortedStep(v, es, broker, owned, k, accepted, failed, uncertain);
    AnsweredStep(v, es, broker, owned, k, before, done);
  }

  /** Answer the publications that were not acknowledged. */
  method AnswerFailures(es: seq<Event>, rows: seq<Option<Row>>, owned: seq<nat>, aliases: map<nat, seq<nat>>,
                        ghost v: View, broker: nat -> Delivery, ghost finalized: bool, ghost before: set<nat>)
    returns (after: seq<Option<Row>>, accepted: seq<nat>, failed: seq<nat>, uncertain: seq<nat>, ghost done: set<nat>)
    requires Filled(es, rows, Wanted(v, es, broker, finalized), before)
    requires OwnedList(v, es, owned) && AliasesUpTo(es, |es|, aliases)
    requires forall j :: j in before ==> j !in owned
    ensures Filled(es, after, Wanted(v, es, broker, finalized), done)
    ensures SortedUpTo(v, es, broker, |es|, accepted, failed, uncertain)
    ensures AnsweredBelow(v, es, broker, |es|, before, done)
  {
    NothingBetween(es, owned, 0);
    after, accepted, failed, uncertain, done := rows, [], [], [], before;
    for k := 0 to |owned|
      invariant Filled(es, after, Wanted(v, es, broker, finalized), done)
      invariant SortedSoFar(v, es, broker, Bound(owned, k, |es|), accepted, failed, uncertain, before, done)
    {
      assert owned[k] in owned;
      after, accepted, failed, uncertain, done :=
        SortOutcome(es, after, owned, k, aliases, v, broker, finalized, accepted, failed, uncertain, before, done);
    }
  }

  /** One turn of the loop: an outcome joins its list, and all but an acknowledged one are answered. */
  method SortOutcome(es: seq<Event>, rows: seq<Option<Row>>, owned: seq<nat>, k: nat, aliases: map<nat, seq<nat>>,
                     ghost v: View, broker: nat -> Delivery, ghost finalized: bool, accepted: seq<nat>,
                     failed: seq<nat>, uncertain: seq<nat>, ghost before: set<nat>, ghost done: set<nat>)
    returns (after: seq<Option<Row>>, accepted': seq<nat>, failed': seq<nat>, uncertain': seq<nat>,
             ghost done': set<nat>)
    requires OwnedList(v, es, owned) && k < |owned| && owned[k] !in before && AliasesUpTo(es, |es|, aliases)
    requires Filled(es, rows, Wanted(v, es, broker, finalized), done)
    requires SortedSoFar(v, es, broker, owned[k], accepted, failed, uncertain, before, done)
    ensures Filled(es, after, Wanted(v, es, broker, finalized), done')
    ensures SortedSoFar(v, es, broker, Bound(owned, k + 1, |es|), accepted', failed', uncertain', before, done')
  {
    var j := owned[k];
    FailuresStep(v, es, broker, owned, k, accepted, failed, uncertain, before, done);
    after, accepted', failed', uncertain', done' := rows, accepted, failed, uncertain, done;
    if broker(j) == Acked {
      accepted' := accepted + [j];
    } else {
      if broker(j) == TimedOut {
        uncertain' := uncertain + [j];
      } else {
        failed' := failed + [j];
      }
      after := AnswerFailure(es, rows, j, aliases, v, broker, finalized, done);
      done' := done + {j};
    }
  }

  method AnswerFailure(es: seq<Event>, rows: seq<Option<Row>>, j: nat, aliases: map<nat, seq<nat>>,
                       ghost v: View, broker: nat -> Delivery, ghost finalized: bool, ghost done: set<nat>)
    returns (after: seq<Option<Row>>)
    requires Filled(es, rows, Wanted(v, es, broker, finalized), done) && AliasesUpTo(es, |es|, aliases)
    requires j < |es| && Owned(v, es, j) && j !in done && broker(j) != Acked
    ensures Filled(es, after, Wanted(v, es, broker, finalized), done + {j})
  {
    var answer :=
      if broker(j) == Overloaded then Saturated else if broker(j) == TimedOut then InDoubt else Unreachable;
    after := AnswerLeader(es, rows, j, aliases, answer, answer, v, broker, finalized, done);
  }

  /** Answer the acknowledged publications: accepted when the identities were finalized. */
  method AnswerAccepted(es: seq<Event>, rows: seq<Option<Row>>, accepted: seq<nat>, aliases: map<nat, seq<nat>>,
                        finalized: bool, ghost v: View, ghost broker: nat -> Delivery, ghost answered: bool,
                        ghost done: set<nat>)
    returns (after: seq<Option<Row>>)
    requires finalized <==> accepted == [] || answered
    requires Filled(es, rows, Wanted(v, es, broker, answered), done)
    requires AliasesUpTo(es, |es|, aliases) && Ascending(es, accepted)
    requires forall k :: 0 <= k < |accepted| ==>
               KindOf(v, es, broker, accepted[k]) == Delivered && accepted[k] !in done
    ensures Filled(es, after, Wanted(v, es, broker, answered), done + Elements(accepted))
  {
    after := rows;
    assert done + Elements(accepted[..0]) == done;
    for k := 0 to |accepted|
      invariant Filled(es, after, Wanted(v, es, broker, answered), done + Elements(accepted[..k]))
    {
      var j := accepted[k];
      assert j !in accepted[..k];
      ElementsSnoc(accepted, k);
      var answer := if finalized then New(es[j].suspicious) else InDoubt;
      var alias := if finalized then Idempotent(es[j].suspicious) else InDoubt;
      after := AnswerLeader(es, after, j, aliases, answer, alias, v, broker, answered, done + Elements(accepted[..k]));
      assert done + Elements(accepted[..k]) + {j} == done + Elements(accepted[..k + 1]);
    }
    assert accepted[..|accepted|] == accepted;
  }

  ghost predicate SomeRefused(v: View, es: seq<Event>, broker: nat -> Delivery) {
    exists j: nat :: KindOf(v, es, broker, j) == Failed
  }

  /** After the claim: what was live is unchanged, what is owned is pending, nothing else is there. */
  ghost predicate Claimed(v: View, es: seq<Event>, clock: Clock, w: View) {
    && (forall f :: f in v ==> f in w && w[f] == v[f])
    && (forall i {:trigger Owned(v, es, i)} :: 0 <= i < |es| && Owned(v, es, i) ==>
          At(w, es[i].eventId) == Some(Slot(Entry(Pending, es[i].fp), clock.now + clock.pendingTtl)))
    && (forall f :: f in w && f !in v ==> exists i :: 0 <= i < |es| && es[i].eventId == f)
  }

  lemma {:induction false} LeadersClaimed(v: View, es: seq<Event>, unique: seq<nat>, expiry: int)
    requires LeaderList(es, unique)
    ensures var c := ClaimSeq(v, ItemsAt(es, unique), expiry);
      && LeaderStates(v, es, unique, c.1)
      && forall k :: 0 <= k < |unique| && es[unique[k]].eventId !in v ==>
           At(c.0, es[unique[k]].eventId) == Some(Slot(Entry(Pending, es[unique[k]].fp), expiry))
  {
    LeadersAreDistinct(es, unique);
    forall k | 0 <= k < |unique|
      ensures var c := ClaimSeq(v, ItemsAt(es, unique), expiry);
        && c.1[k] == Verdict(EntryAt(v, es[unique[k]].eventId), es[unique[k]].fp)
        && (es[unique[k]].eventId !in v ==>
              At(c.0, es[unique[k]].eventId) == Some(Slot(Entry(Pending, es[unique[k]].fp), expiry)))
    {
      ClaimDistinctAt(v, ItemsAt(es, unique), expiry, k);
    }
  }

  lemma {:induction false} OthersUnclaimed(v: View, es: seq<Event>, unique: seq<nat>, expiry: int, f: Digest)
    requires LeaderList(es, unique)
    ensures var w := ClaimSeq(v, ItemsAt(es, unique), expiry).0;
      && (f in v ==> f in w && w[f] == v[f])
      && (f in w && f !in v ==> exists k :: 0 <= k < |unique| && es[unique[k]].eventId == f)
  {
    if f in v {
      ClaimKeepsLiveEntries(v, ItemsAt(es, unique), expiry, f);
    } else if forall k :: 0 <= k < |unique| ==> es[unique[k]].eventId != f {
      ClaimElsewhere(v, ItemsAt(es, unique), expiry, f);
    }
  }

  /** What claiming the first event of each id settles. */
  lemma {:induction false} ClaimSettles(
    v: View, es: seq<Event>, unique: seq<nat>, clock: Clock, w: View, states: seq<Claim>)
    requires LeaderList(es, unique)
    requires (w, states) == ClaimSeq(v, ItemsAt(es, unique), clock.now + clock.pendingTtl)
    ensures Claimed(v, es, clock, w)
    ensures LeaderStates(v, es, unique, states)
  {
    var expiry := clock.now + clock.pendingTtl;
    LeadersClaimed(v, es, unique, expiry);
    forall f
      ensures f in v ==> f in w && w[f] == v[f]
      ensures f in w && f !in v ==> exists i :: 0 <= i < |es| && es[i].eventId == f
    {
      OthersUnclaimed(v, es, unique, expiry, f);
    }
    forall i | 0 <= i < |es| && Owned(v, es, i)
      ensures At(w, es[i].eventId) == Some(Slot(Entry(Pending, es[i].fp), expiry))
    {
      var k :| 0 <= k < |unique| && unique[k] == i;
      assert es[unique[k]].eventId == es[i].eventId;
    }
  }

  // ---------- finishing a batch: finalize, mark, release ----------

  /** The indices of owned events, each once. */
  ghost predicate OwnedOnce(v: View, es: seq<Event>, js: seq<nat>) {
    && (forall k :: 0 <= k < |js| ==> js[k] < |es| && Owned(v, es, js[k]))
    && (forall a, b :: 0 <= a < b < |js| ==> js[a] != js[b])
  }

  lemma {:induction false} OwnedItems(v: View, es: seq<Event>, js: seq<nat>)
    requires OwnedOnce(v, es, js)
    ensures DistinctFields(ItemsAt(es, js))
  {
    forall a, b | 0 <= a < b < |js|
      ensures es[js[a]].eventId != es[js[b]].eventId
    {
      assert Owned(v, es, js[a]) && Owned(v, es, js[b]);
    }
  }

  lemma {:induction false} ListedOnce(v: View, es: seq<Event>, broker: nat -> Delivery, kind: Kind, js: seq<nat>)
    requires kind != NotSent && Listed(v, es, broker, kind, |es|, js)
    ensures OwnedOnce(v, es, js)
  {
    forall k | 0 <= k < |js|
      ensures js[k] < |es| && Owned(v, es, js[k])
    {
      assert js[k] in js && KindOf(v, es, broker, js[k]) == kind;
    }
  }

  /** The fingerprint the items have for an owned event: its own if it is among them. */
  lemma {:induction false} OwnedFp(v: View, es: seq<Event>, js: seq<nat>, j: nat)
    requires OwnedOnce(v, es, js) && j < |es| && Owned(v, es, j)
    ensures FpOf(ItemsAt(es, js), es[j].eventId) == if j in js then Some(es[j].fp) else None
  {
    OwnedItems(v, es, js);
    FpOfIs(ItemsAt(es, js), es[j].eventId);
    forall k | 0 <= k < |js| && es[js[k]].eventId == es[j].eventId
      ensures js[k] == j
    {
      FirstIsShared(es, js[k], j);
      assert Owned(v, es, js[k]);
    }
    if j in js {
      var k :| 0 <= k < |js| && js[k] == j;
      assert ItemsAt(es, js)[k].field == es[j].eventId;
    }
  }

  ghost predicate Unowned(v: View, es: seq<Event>, f: Digest) {
    forall j: nat {:trigger Owned(v, es, j)} :: j < |es| && Owned(v, es, j) ==> es[j].eventId != f
  }

  lemma {:induction false} UnownedFp(v: View, es: seq<Event>, js: seq<nat>, f: Digest)
    requires OwnedOnce(v, es, js) && Unowned(v, es, f)
    ensures FpOf(ItemsAt(es, js), f) == None
  {
    OwnedItems(v, es, js);
    FpOfIs(ItemsAt(es, js), f);
    forall k | 0 <= k < |js|
      ensures es[js[k]].eventId != f
    {
      assert Owned(v, es, js[k]);
    }
  }

  function Finalized(raw: View, items: seq<Item>, calls: Calls, clock: Clock): (View, nat) {
    TransitionSeq(raw, Reached(items, calls.finalize.reached), Accepted, clock.now + clock.acceptedTtl)
  }

  function Marked(raw: View, items: seq<Item>, calls: Calls, clock: Clock): View {
    TransitionSeq(raw, Reached(items, calls.mark.reached), Uncertain, clock.now + clock.uncertainTtl).0
  }

  function Freed(raw: View, items: seq<Item>, calls: Calls): View {
    ReleaseSeq(raw, Reached(items, calls.release.reached))
  }

  /** What is marked: the timeouts, and the acknowledged events when finalize was not answered. */
  function ToMark(accepted: seq<nat>, uncertain: seq<nat>, calls: Calls): seq<nat> {
    uncertain + if calls.finalize.answered then [] else accepted
  }

  /** The raw store after the three calls that end a batch. */
  ghost function Ended(raw: View, es: seq<Event>, calls: Calls, clock: Clock,
                       accepted: seq<nat>, failed: seq<nat>, marked: seq<nat>): View
    requires forall k :: 0 <= k < |accepted| ==> accepted[k] < |es|
    requires forall k :: 0 <= k < |failed| ==> failed[k] < |es|
    requires forall k :: 0 <= k < |marked| ==> marked[k] < |es|
  {
    var finalized := Finalized(raw, ItemsAt(es, accepted), calls, clock).0;
    Freed(Marked(finalized, ItemsAt(es, marked), calls, clock), ItemsAt(es, failed), calls)
  }

  lemma {:induction false} FinalizedOwned(
    v: View, es: seq<Event>, here: View, calls: Calls, clock: Clock, js: seq<nat>, j: nat)
    requires OwnedOnce(v, es, js) && j < |es| && Owned(v, es, j)
    ensures
      var f, expiry := es[j].eventId, clock.now + clock.acceptedTtl;
      At(Finalized(here, ItemsAt(es, js), calls, clock).0, f) ==
        if j in js && calls.finalize.reached(f) then Moved(At(here, f), es[j].fp, Accepted, expiry) else At(here, f)
  {
    OwnedItems(v, es, js);
    OwnedFp(v, es, js, j);
    MovedAt(here, ItemsAt(es, js), calls.finalize.reached, Accepted, clock.now + clock.acceptedTtl, es[j].eventId);
  }

  lemma {:induction false} MarkedOwned(
    v: View, es: seq<Event>, here: View, calls: Calls, clock: Clock, js: seq<nat>, j: nat)
    requires OwnedOnce(v, es, js) && j < |es| && Owned(v, es, j)
    ensures
      var f, expiry := es[j].eventId, clock.now + clock.uncertainTtl;
      At(Marked(here, ItemsAt(es, js), calls, clock), f) ==
        if j in js && calls.mark.reached(f) then Moved(At(here, f), es[j].fp, Uncertain, expiry) else At(here, f)
  {
    OwnedItems(v, es, js);
    OwnedFp(v, es, js, j);
    MovedAt(here, ItemsAt(es, js), calls.mark.reached, Uncertain, clock.now + clock.uncertainTtl, es[j].eventId);
  }

  lemma {:induction false} FreedOwned(v: View, es: seq<Event>, here: View, calls: Calls, js: seq<nat>, j: nat)
    requires OwnedOnce(v, es, js) && j < |es| && Owned(v, es, j)
    ensures
      var f := es[j].eventId;
      At(Freed(here, ItemsAt(es, js), calls), f) ==
        if j in js && calls.release.reached(f) then Released(At(here, f), es[j].fp) else At(here, f)
  {
    OwnedItems(v, es, js);
    OwnedFp(v, es, js, j);
    ReleasedAt(here, ItemsAt(es, js), calls.release.reached, es[j].eventId);
  }

  lemma {:induction false} EndedElsewhere(
    v: View, es: seq<Event>, raw: View, calls: Calls, clock: Clock,
    accepted: seq<nat>, failed: seq<nat>, marked: seq<nat>, f: Digest)
    requires OwnedOnce(v, es, accepted) && OwnedOnce(v, es, failed) && OwnedOnce(v, es, marked)
    requires Unowned(v, es, f)
    ensures At(Ended(raw, es, calls, clock, accepted, failed, marked), f) == At(raw, f)
  {
    var finalized := Finalized(raw, ItemsAt(es, accepted), calls, clock).0;
    var after := Marked(finalized, ItemsAt(es, marked), calls, clock);
    OwnedItems(v, es, accepted);
    OwnedItems(v, es, marked);
    OwnedItems(v, es, failed);
    UnownedFp(v, es, accepted, f);
    UnownedFp(v, es, marked, f);
    UnownedFp(v, es, failed, f);
    MovedAt(raw, ItemsAt(es, accepted), calls.finalize.reached, Accepted, clock.now + clock.acceptedTtl, f);
    MovedAt(finalized, ItemsAt(es, marked), calls.mark.reached, Uncertain, clock.now + clock.uncertainTtl, f);
    ReleasedAt(after, ItemsAt(es, failed), calls.release.reached, f);
  }

  /** The lists name events the batch owns, each once, and say of each how it ended. */
  lemma {:induction false} ListsAreOwned(
    v: View, es: seq<Event>, broker: nat -> Delivery, calls: Calls,
    accepted: seq<nat>, failed: seq<nat>, uncertain: seq<nat>)
    requires SortedUpTo(v, es, broker, |es|, accepted, failed, uncertain)
    ensures OwnedOnce(v, es, accepted) && OwnedOnce(v, es, failed)
    ensures OwnedOnce(v, es, ToMark(accepted, uncertain, calls))
  {
    ListedOnce(v, es, broker, Delivered, accepted);
    ListedOnce(v, es, broker, Failed, failed);
    ListedOnce(v, es, broker, Unsure, uncertain);
    forall a, b | 0 <= a < |uncertain| && 0 <= b < |accepted|
      ensures uncertain[a] != accepted[b]
    {
      assert uncertain[a] in uncertain && accepted[b] in accepted;
    }
  }

  lemma {:induction false} EndsByKind(
    v: View, es: seq<Event>, broker: nat -> Delivery, calls: Calls,
    accepted: seq<nat>, failed: seq<nat>, uncertain: seq<nat>, j: nat)
    requires SortedUpTo(v, es, broker, |es|, accepted, failed, uncertain) && j < |es| && Owned(v, es, j)
    ensures j in accepted <==> broker(j) == Acked
    ensures j in failed <==> Fails(broker(j))
    ensures j in ToMark(accepted, uncertain, calls) <==>
      broker(j) == TimedOut || (broker(j) == Acked && !calls.finalize.answered)
  {
    assert KindOf(v, es, broker, j) == KindOfDelivery(broker(j));
  }

  lemma {:induction false} PendingRaw(v: View, es: seq<Event>, clock: Clock, raw: View, j: nat)
    requires Claimed(v, es, clock, Live(raw, clock.now)) && j < |es| && Owned(v, es, j)
    ensures At(raw, es[j].eventId) == Some(Slot(Entry(Pending, es[j].fp), clock.now + clock.pendingTtl))
  {
    assert At(Live(raw, clock.now), es[j].eventId).Some?;
  }

  /** The slot of an owned event after each of the calls, by how its publication ended. */
  function SlotThen(fp: Digest, d: Delivery, f: Digest, calls: Calls, clock: Clock, marked: bool): Option<Slot> {
    var pending := Some(Slot(Entry(Pending, fp), clock.now + clock.pendingTtl));
    if d == Acked && calls.finalize.reached(f) then Some(Slot(Entry(Accepted, fp), clock.now + clock.acceptedTtl))
    else if marked && (d == TimedOut || (d == Acked && !calls.finalize.answered)) && calls.mark.reached(f) then
      Some(Slot(Entry(Uncertain, fp), clock.now + clock.uncertainTtl))
    else pending
  }

  lemma {:induction false} SlotsMove(f: Digest, fp: Digest, d: Delivery, calls: Calls, clock: Clock)
    requires ValidCalls(calls)
    ensures
      var pending := Some(Slot(Entry(Pending, fp), clock.now + clock.pendingTtl));
      SlotThen(fp, d, f, calls, clock, false) ==
        if d == Acked && calls.finalize.reached(f)
        then Moved(pending, fp, Accepted, clock.now + clock.acceptedTtl) else pending
    ensures
      var finalized := SlotThen(fp, d, f, calls, clock, false);
      SlotThen(fp, d, f, calls, clock, true) ==
        if (d == TimedOut || (d == Acked && !calls.finalize.answered)) && calls.mark.reached(f)
        then Moved(finalized, fp, Uncertain, clock.now + clock.uncertainTtl) else finalized
    ensures
      var marked := SlotThen(fp, d, f, calls, clock, true);
      SlotLeft(f, fp, d, calls, clock) == if Fails(d) && calls.release.reached(f) then Released(marked, fp) else marked
  {
  }

  /** However the calls end, an owned identity is left as SlotLeft says. */
  lemma {:induction false} EndedSlot(
    v: View, es: seq<Event>, broker: nat -> Delivery, raw: View, calls: Calls, clock: Clock,
    accepted: seq<nat>, failed: seq<nat>, uncertain: seq<nat>, j: nat)
    requires ValidCalls(calls) && Claimed(v, es, clock, Live(raw, clock.now))
    requires SortedUpTo(v, es, broker, |es|, accepted, failed, uncertain)
    requires OwnedOnce(v, es, accepted) && OwnedOnce(v, es, failed)
    requires OwnedOnce(v, es, ToMark(accepted, uncertain, calls))
    requires j < |es| && Owned(v, es, j)
    ensures At(Ended(raw, es, calls, clock, accepted, failed, ToMark(accepted, uncertain, calls)), es[j].eventId)
         == SlotLeft(es[j].eventId, es[j].fp, broker(j), calls, clock)
  {
    var d, marks := broker(j), ToMark(accepted, uncertain, calls);
    var finalized := Finalized(raw, ItemsAt(es, accepted), calls, clock).0;
    var marked := Marked(finalized, ItemsAt(es, marks), calls, clock);
    EndsByKind(v, es, broker, calls, accepted, failed, uncertain, j);
    PendingRaw(v, es, clock, raw, j);
    SlotsMove(es[j].eventId, es[j].fp, d, calls, clock);
    FinalizedOwned(v, es, raw, calls, clock, accepted, j);
    MarkedOwned(v, es, finalized, calls, clock, marks, j);
    FreedOwned(v, es, marked, calls, failed, j);
  }

  lemma {:induction false} EndedLeaves(
    v: View, es: seq<Event>, broker: nat -> Delivery, raw: View, calls: Calls, clock: Clock,
    accepted: seq<nat>, failed: seq<nat>, uncertain: seq<nat>, last: View)
    requires Positive(clock) && ValidCalls(calls) && Claimed(v, es, clock, Live(raw, clock.now))
    requires SortedUpTo(v, es, broker, |es|, accepted, failed, uncertain)
    requires OwnedOnce(v, es, accepted) && OwnedOnce(v, es, failed)
    requires OwnedOnce(v, es, ToMark(accepted, uncertain, calls))
    requires last == Ended(raw, es, calls, clock, accepted, failed, ToMark(accepted, uncertain, calls))
    ensures BatchLeaves(v, es, broker, calls, clock, Live(last, clock.now))
  {
    var w, marked := Live(last, clock.now), ToMark(accepted, uncertain, calls);
    forall f | f in v
      ensures f in w && w[f] == v[f]
    {
      assert Live(raw, clock.now)[f] == v[f] && Unowned(v, es, f);
      EndedElsewhere(v, es, raw, calls, clock, accepted, failed, marked, f);
      assert At(last, f) == At(raw, f);
    }
    forall j: nat | 0 <= j < |es| && Owned(v, es, j)
      ensures At(w, es[j].eventId) == SlotLeft(es[j].eventId, es[j].fp, broker(j), calls, clock)
    {
      EndedSlot(v, es, broker, raw, calls, clock, accepted, failed, uncertain, j);
      LiveSlot(last, es[j].eventId, es[j].fp, broker(j), calls, clock);
    }
    forall f | f in w && f !in v
      ensures exists i :: 0 <= i < |es| && es[i].eventId == f
    {
      if Unowned(v, es, f) {
        EndedElsewhere(v, es, raw, calls, clock, accepted, failed, marked, f);
        assert At(last, f) == At(raw, f);
        assert f in Live(raw, clock.now);
      }
    }
  }

  predicate Positive(clock: Clock) {
    clock.pendingTtl > 0 && clock.uncertainTtl > 0 && clock.acceptedTtl > 0
  }

  /** What an accept leaves has not expired yet. */
  lemma {:induction false} LiveSlot(raw: View, f: Digest, fp: Digest, d: Delivery, calls: Calls, clock: Clock)
    requires Positive(clock) && At(raw, f) == SlotLeft(f, fp, d, calls, clock)
    ensures At(Live(raw, clock.now), f) == SlotLeft(f, fp, d, calls, clock)
  {
  }

  lemma {:induction false} OwnedAreMovable(v: View, es: seq<Event>, raw: View, clock: Clock, js: seq<nat>)
    requires Claimed(v, es, clock, Live(raw, clock.now)) && OwnedOnce(v, es, js)
    ensures AllMovable(raw, ItemsAt(es, js), Accepted)
  {
    forall k | 0 <= k < |js|
      ensures es[js[k]].eventId in raw && raw[es[js[k]].eventId].entry == Entry(Pending, es[js[k]].fp)
    {
      PendingRaw(v, es, clock, raw, js[k]);
    }
  }

  /** All that is acknowledged is counted by a finalize that is answered. */
  lemma {:induction false} FinalizeCounts(
    v: View, es: seq<Event>, raw: View, calls: Calls, clock: Clock, accepted: seq<nat>)
    requires ValidCall(calls.finalize) && calls.finalize.answered
    requires Claimed(v, es, clock, Live(raw, clock.now)) && OwnedOnce(v, es, accepted)
    ensures Finalized(raw, ItemsAt(es, accepted), calls, clock).1 == |accepted|
  {
    OwnedItems(v, es, accepted);
    OwnedAreMovable(v, es, raw, clock, accepted);
    AllCounted(raw, ItemsAt(es, accepted), calls, clock);
  }

  lemma {:induction false} AllCounted(raw: View, items: seq<Item>, calls: Calls, clock: Clock)
    requires ValidCall(calls.finalize) && calls.finalize.answered
    requires DistinctFields(items) && AllMovable(raw, items, Accepted)
    ensures Finalized(raw, items, calls, clock).1 == |items|
  {
    ReachedAll(items, calls.finalize.reached);
    TransitionCounts(raw, items, Accepted, clock.now + clock.acceptedTtl);
  }

  // ---------- one event ----------

  /** A batch of one ends like an accept. */
  lemma {:induction false} OneLeaves(v: View, e: Event, d: Delivery, calls: Calls, clock: Clock, w: View)
    requires e.eventId !in v && BatchLeaves(v, [e], _ => d, calls, clock, w)
    ensures w == AcceptStep(v, e, d, calls, clock).0
  {
    assert First([e], 0) == 0 && Owned(v, [e], 0);
    forall f
      ensures At(w, f) == At(AcceptStep(v, e, d, calls, clock).0, f)
    {
      assert [e][0] == e && (f !in v && f != e.eventId ==> f !in w);
    }
    SameView(w, AcceptStep(v, e, d, calls, clock).0);
  }

  /** And an owner's claim is the claim of a batch of one. */
  lemma {:induction false} OneClaimed(v: View, e: Event, clock: Clock, w: View)
    requires e.eventId !in v && w == ClaimStep(v, ItemOf(e), clock.now + clock.pendingTtl).0
    ensures Claimed(v, [e], clock, w)
  {
    assert [e][0] == e;
  }

  lemma {:induction false} OneSorted(v: View, e: Event, d: Delivery)
    requires e.eventId !in v
    ensures SortedUpTo(v, [e], _ => d, 1, if d == Acked then [0] else [], if Fails(d) then [0] else [],
                       if d == TimedOut then [0] else [])
  {
    assert First([e], 0) == 0 && Owned(v, [e], 0);
  }

  function EnvelopeOf(e: Event): Ox.Envelope {
    Ox.Envelope(e.content, true)
  }

  /**
   An accept in outbox mode whose envelope's publication ends as `p`: the identities it leaves and its answer.
   Published or kept, the identity is finalized; an overload raises and leaves it pending.
   */
  function BufferedStep(v: View, e: Event, p: Ox.Publication, calls: Calls, clock: Clock)
    : (View, Result<Answer, Failure>)
  {
    if e.eventId in v then (v, AcceptStep(v, e, Acked, calls, clock).1)
    else if p == Ox.Overloaded then (ClaimStep(v, ItemOf(e), clock.now + clock.pendingTtl).0, Err(Overload))
    else
      (AcceptStep(v, e, Acked, calls, clock).0,
       Ok(if p == Ox.Acked && calls.finalize.answered then New(e.suspicious) else Buffered))
  }

  /**
   Only an acknowledged and finalized event is answered as new; any other that was stored is buffered. The
   identity is accepted when finalize reached it, else uncertain or pending, and pending when an overload raises.
   */
  lemma {:induction false} BufferedAnswers(v: View, e: Event, p: Ox.Publication, calls: Calls, clock: Clock)
    requires ValidCalls(calls)
    ensures
      var (w, out) := BufferedStep(v, e, p, calls, clock);
      var claimed, id := e.eventId !in v, e.eventId;
      && (!claimed ==> w == v && out == AcceptStep(v, e, Acked, calls, clock).1)
      && (forall f :: f != id ==> At(w, f) == At(v, f))
      && (claimed ==>
           && (out.Err? <==> p == Ox.Overloaded)
           && (out == Ok(New(e.suspicious)) <==> p == Ox.Acked && calls.finalize.answered)
           && (out == Ok(Buffered) <==> p == Ox.Unavailable || (p == Ox.Acked && !calls.finalize.answered))
           && id in w && w[id].entry.fp == e.fp
           && (w[id].entry.status == Accepted <==> p != Ox.Overloaded && calls.finalize.reached(id)))
  {
  }

  class TokenEventCustody {
    const store: Buckets
    const clock: Clock

    /** What was handed to the dispatcher, whether it found a slot or not. */
    var attempted: seq<Message>

    constructor (store: Buckets, clock: Clock)
      ensures this.store == store && this.clock == clock && attempted == []
    {
      this.store, this.clock, this.attempted := store, clock, [];
    }

    ghost predicate Valid()
      reads this, store
    {
      store.Valid() && Positive(clock)
    }

    ghost function Identities(): View
      reads this, store
      requires Valid()
    {
      Live(store.Raw(), clock.now)
    }

    /** What each bucket happens to clean up: expired fields of its own, at most `limit`. */
    ghost predicate CanClean(limit: nat, cleanup: nat -> seq<Digest>)
      reads this, store
      requires Valid()
    {
      && (forall s :: Cleanup(store.Raw(), cleanup(s), clock.now, limit))
      && (forall s, f :: f in cleanup(s) ==> store.shardOf(f) == s)
    }

    /** The batch claim, on the live identities. */
    method ClaimItems(items: seq<Item>, limit: nat, cleanup: nat -> seq<Digest>) returns (states: seq<Claim>)
      requires Valid() && CanClean(limit, cleanup)
      modifies store
      ensures Valid()
      ensures (Identities(), states) == ClaimSeq(old(Identities()), items, clock.now + clock.pendingTtl)
    {
      states := store.StatusBatch(items, clock.now, clock.pendingTtl, limit, cleanup);
    }

    /** event_identity_status: the batch claim of one identity. */
    method ClaimOne(e: Event, limit: nat, cleanup: nat -> seq<Digest>) returns (verdict: Claim)
      requires Valid() && CanClean(limit, cleanup)
      modifies store
      ensures Valid()
      ensures (Identities(), verdict) == ClaimStep(old(Identities()), ItemOf(e), clock.now + clock.pendingTtl)
    {
      SingleItemCalls(Identities(), ItemOf(e), Accepted, clock.now + clock.pendingTtl);
      var states := ClaimItems([ItemOf(e)], limit, cleanup);
      verdict := states[0];
    }

    /** _transition_event_identities, on the items whose buckets a call reached. */
    method TransitionIdentities(items: seq<Item>, target: Status, expiry: int) returns (matched: nat)
      requires Valid() && target != Pending
      modifies store
      ensures Valid()
      ensures (store.Raw(), matched) == TransitionSeq(old(store.Raw()), items, target, expiry)
    {
      matched := store.TransitionScript(items, target, expiry);
    }

    /** remember_event_identities, with all its attempts. */
    method Finalize(es: seq<Event>, accepted: seq<nat>, calls: Calls) returns (finalized: bool)
      requires Valid() && forall k :: 0 <= k < |accepted| ==> accepted[k] < |es|
      modifies store
      ensures Valid()
      ensures store.Raw() == Finalized(old(store.Raw()), ItemsAt(es, accepted), calls, clock).0
      ensures finalized <==>
        || accepted == []
        || (calls.finalize.answered && Finalized(old(store.Raw()), ItemsAt(es, accepted), calls, clock).1 == |accepted|)
    {
      var reached := Reached(ItemsAt(es, accepted), calls.finalize.reached);
      var matched := TransitionIdentities(reached, Accepted, clock.now + clock.acceptedTtl);
      finalized := accepted == [] || (calls.finalize.answered && matched == |accepted|);
    }

    /** mark_event_identities_uncertain, which ignores a call that is not answered. */
    method Mark(es: seq<Event>, marked: seq<nat>, calls: Calls)
      requires Valid() && forall k :: 0 <= k < |marked| ==> marked[k] < |es|
      modifies store
      ensures Valid()
      ensures store.Raw() == Marked(old(store.Raw()), ItemsAt(es, marked), calls, clock)
    {
      var reached := Reached(ItemsAt(es, marked), calls.mark.reached);
      var _ := TransitionIdentities(reached, Uncertain, clock.now + clock.uncertainTtl);
    }

    /** release_event_identities, which raises when a call is not answered. */
    method Release(es: seq<Event>, failed: seq<nat>, calls: Calls) returns (released: bool)
      requires Valid() && forall k :: 0 <= k < |failed| ==> failed[k] < |es|
      modifies store
      ensures Valid()
      ensures store.Raw() == Freed(old(store.Raw()), ItemsAt(es, failed), calls)
      ensures released <==> failed == [] || calls.release.answered
    {
      var reached := Reached(ItemsAt(es, failed), calls.release.reached);
      var _ := store.ReleaseScript(reached);
      released := failed == [] || calls.release.answered;
    }

    /** Finalize what was acknowledged, mark what is uncertain, release what failed. */
    method EndBatch(es: seq<Event>, ghost v: View, ghost broker: nat -> Delivery, calls: Calls,
                    accepted: seq<nat>, failed: seq<nat>, uncertain: seq<nat>)
      returns (finalized: bool, released: bool)
      requires Valid() && ValidCalls(calls) && Claimed(v, es, clock, Identities())
      requires SortedUpTo(v, es, broker, |es|, accepted, failed, uncertain)
      modifies store
      ensures Valid()
      ensures finalized <==> accepted == [] || calls.finalize.answered
      ensures released <==> failed == [] || calls.release.answered
      ensures BatchLeaves(v, es, broker, calls, clock, Identities())
    {
      ghost var raw := store.Raw();
      ListsAreOwned(v, es, broker, calls, accepted, failed, uncertain);
      finalized := Finalize(es, accepted, calls);
      if calls.finalize.answered {
        FinalizeCounts(v, es, raw, calls, clock, accepted);
      }
      var marked := if finalized then uncertain else uncertain + accepted;
      assert marked == ToMark(accepted, uncertain, calls);
      Mark(es, marked, calls);
      released := Release(es, failed, calls);
      EndedLeaves(v, es, broker, raw, calls, clock, accepted, failed, uncertain, store.Raw());
    }

    /** The calls that end an accept are those of a batch of one. */
    method EndAccept(e: Event, delivery: Delivery, calls: Calls, ghost v: View)
      returns (finalized: bool, released: bool)
      requires Valid() && ValidCalls(calls) && e.eventId !in v
      requires Identities() == ClaimStep(v, ItemOf(e), clock.now + clock.pendingTtl).0
      modifies store
      ensures Valid()
      ensures delivery == Acked ==> (finalized <==> calls.finalize.answered)
      ensures released <==> !Fails(delivery) || calls.release.answered
      ensures Identities() == AcceptStep(v, e, delivery, calls, clock).0
    {
      OneClaimed(v, e, clock, Identities());
      OneSorted(v, e, delivery);
      finalized, released :=
        EndBatch([e], v, _ => delivery, calls, if delivery == Acked then [0] else [],
                 if Fails(delivery) then [0] else [], if delivery == TimedOut then [0] else []);
      OneLeaves(v, e, delivery, calls, clock, Identities());
    }

    /** _accept_impl outside outbox mode, for a delivery that needs no late callback. */
    method Accept(e: Event, delivery: Delivery, calls: Calls, limit: nat, cleanup: nat -> seq<Digest>)
      returns (out: Result<Answer, Failure>)
      requires Valid() && ValidCalls(calls) && CanClean(limit, cleanup)
      modifies this`attempted, store
      ensures Valid()
      ensures
        var step := AcceptStep(old(Identities()), e, delivery, calls, clock);
        Identities() == step.0 && out == step.1 && attempted == old(attempted) + step.2
      ensures attempted == old(attempted) + if e.eventId in old(Identities()) then [] else [Message(e.suspicious, e)]
    {
      ghost var v := Identities();
      var verdict := ClaimOne(e, limit, cleanup);
      if verdict != Owner {
        return Ok(AnswerOf(verdict));
      }
      attempted := attempted + [MessageOf(e)];
      var finalized, released := EndAccept(e, delivery, calls, v);
      if !released {
        return Err(StoreUnavailable);
      }
      out := Ok(
        if delivery == Acked then (if finalized then New(e.suspicious) else InDoubt)
        else if delivery == TimedOut then InDoubt
        else if delivery == Overloaded then Saturated
        else Unreachable);
    }

    /**
     _accept_impl in outbox mode: the envelope is stored before anything is published, so once the identity
     is claimed the event is acknowledged or in the outbox, whatever is answered or raised.
     */
    method AcceptBuffered(e: Event, p: Ox.Publication, calls: Calls, outbox: Ox.GatewayOutbox,
                          limit: nat, cleanup: nat -> seq<Digest>)
      returns (out: Result<Answer, Failure>)
      requires Valid() && ValidCalls(calls) && CanClean(limit, cleanup)
      modifies store, outbox
      ensures Valid()
      ensures (Identities(), out) == BufferedStep(old(Identities()), e, p, calls, clock)
      ensures e.eventId in old(Identities()) ==>
                outbox.Contents() == old(outbox.Contents()) && outbox.sent == old(outbox.sent)
      ensures e.eventId !in old(Identities()) ==>
                || Ox.Entry(e.eventId, Ox.Envelope(e.content, true)) in outbox.sent
                || (e.eventId in outbox.events && outbox.events[e.eventId] == Ox.Envelope(e.content, true)
                    && e.eventId in outbox.pending)
    {
      ghost var v := Identities();
      var verdict := ClaimOne(e, limit, cleanup);
      if verdict != Owner {
        return Ok(AnswerOf(verdict));
      }
      var published := outbox.PublishEnvelope(e.eventId, EnvelopeOf(e), clock.now, p);
      if published.Err? {
        return Err(Overload);
      }
      var finalized, _ := EndAccept(e, Acked, calls, v);
      out := Ok(if finalized && published.value then New(e.suspicious) else Buffered);
    }

    /** The claim of the first event of each id. */
    method ClaimLeaders(es: seq<Event>, ghost broker: nat -> Delivery, ghost finalized: bool, limit: nat,
                        cleanup: nat -> seq<Digest>)
      returns (rows: seq<Option<Row>>, unique: seq<nat>, aliases: map<nat, seq<nat>>, states: seq<Claim>)
      requires Valid() && CanClean(limit, cleanup)
      modifies store
      ensures Valid()
      ensures Filled(es, rows, Wanted(old(Identities()), es, broker, finalized), {})
      ensures LeaderList(es, unique) && AliasesUpTo(es, |es|, aliases)
      ensures LeaderStates(old(Identities()), es, unique, states)
      ensures Claimed(old(Identities()), es, clock, Identities())
    {
      ghost var v := Identities();
      rows, unique, aliases := Deduplicate(es, Wanted(v, es, broker, finalized));
      LeadersAreListed(es);
      states := ClaimItems(ItemsAt(es, unique), limit, cleanup);
      ClaimSettles(v, es, unique, clock, Identities(), states);
    }

    /** The claim, and the answers it settles. */
    method ClaimAll(es: seq<Event>, ghost broker: nat -> Delivery, ghost finalized: bool, limit: nat,
                    cleanup: nat -> seq<Digest>)
      returns (rows: seq<Option<Row>>, aliases: map<nat, seq<nat>>, owned: seq<nat>, ghost done: set<nat>)
      requires Valid() && CanClean(limit, cleanup)
      modifies store
      ensures Valid()
      ensures Filled(es, rows, Wanted(old(Identities()), es, broker, finalized), done)
      ensures AliasesUpTo(es, |es|, aliases)
      ensures OwnedList(old(Identities()), es, owned) && Settled(old(Identities()), es, done)
      ensures Claimed(old(Identities()), es, clock, Identities())
    {
      ghost var v := Identities();
      var unique, states;
      rows, unique, aliases, states := ClaimLeaders(es, broker, finalized, limit, cleanup);
      rows, owned, done := AnswerOthers(es, rows, unique, aliases, states, v, broker, finalized);
    }

    /** Claim and publish; what is left to answer afterwards is what was sent. */
    method ClaimAndPublish(es: seq<Event>, ghost broker: nat -> Delivery, ghost finalized: bool, limit: nat,
                           cleanup: nat -> seq<Digest>)
      returns (rows: seq<Option<Row>>, aliases: map<nat, seq<nat>>, owned: seq<nat>, ghost done: set<nat>)
      requires Valid() && CanClean(limit, cleanup)
      modifies this`attempted, store
      ensures Valid()
      ensures attempted == old(attempted) + BatchMessages(old(Identities()), es)
      ensures Filled(es, rows, Wanted(old(Identities()), es, broker, finalized), done)
      ensures AliasesUpTo(es, |es|, aliases)
      ensures OwnedList(old(Identities()), es, owned) && Settled(old(Identities()), es, done)
      ensures SentFor(es, owned, attempted[|old(attempted)|..])
      ensures Claimed(old(Identities()), es, clock, Identities())
    {
      ghost var v := Identities();
      rows, aliases, owned, done := ClaimAll(es, broker, finalized, limit, cleanup);
      OwnedMessages(v, es, owned);
      attempted := attempted + MessagesAt(es, owned);
      assert attempted[|old(attempted)|..] == MessagesAt(es, owned);
    }

    /**
     _accept_many_impl. On success every index holds the row of its own event, with the answer
     BatchAnswer gives; each row is written once, and no event is left unresolved. The call fails
     only when something is to be released and the release is not answered. Whatever is answered, each
     identity is left as BatchLeaves says.
     */
    method AcceptMany(es: seq<Event>, broker: nat -> Delivery, calls: Calls, limit: nat, cleanup: nat -> seq<Digest>)
      returns (out: Result<seq<Row>, Failure>)
      requires Valid() && ValidCalls(calls) && CanClean(limit, cleanup)
      modifies this`attempted, store
      ensures Valid()
      ensures attempted == old(attempted) + BatchMessages(old(Identities()), es)
      ensures exists js :: OwnedList(old(Identities()), es, js) && SentFor(es, js, attempted[|old(attempted)|..])
      ensures BatchLeaves(old(Identities()), es, broker, calls, clock, Identities())
      ensures out.Ok? ==> AllAnswered(old(Identities()), es, broker, calls.finalize.answered, out.value)
      ensures out.Ok? ==> NewlySent(es, attempted[|old(attempted)|..], out.value)
      ensures out.Err? <==> !calls.release.answered && SomeRefused(old(Identities()), es, broker)
      ensures out.Err? ==> out.error == StoreUnavailable
    {
      ghost var v, answered := Identities(), calls.finalize.answered;
      var rows, aliases, owned;
      ghost var done;
      rows, aliases, owned, done := ClaimAndPublish(es, broker, answered, limit, cleanup);
      var accepted, failed, uncertain;
      rows, accepted, failed, uncertain, done := AnswerFailures(es, rows, owned, aliases, v, broker, answered, done);
      var finalized, released := EndBatch(es, v, broker, calls, accepted, failed, uncertain);
      rows := AnswerAccepted(es, rows, accepted, aliases, finalized, v, broker, answered, done);
      if !released {
        assert failed[0] in failed;
        return Err(StoreUnavailable);
      }
      out := Assemble(es, rows, v, broker, answered, done + Elements(accepted));
      EachNewIsSent(v, es, broker, answered, owned, attempted[|old(attempted)|..], out.value);
    }
  }

  /** Every event answered as new was sent, to the quarantine topic exactly when the answer says so. */
  ghost predicate NewlySent(es: seq<Event>, sent: seq<Message>, rows: seq<Row>) {
    |rows| == |es| && forall i :: 0 <= i < |rows| && rows[i].answer.New? ==>
      Message(rows[i].answer.quarantined, es[i]) in sent
  }

  lemma {:induction false} EachNewIsSent(
    v: View, es: seq<Event>, broker: nat -> Delivery, finalized: bool, js: seq<nat>, sent: seq<Message>, rows: seq<Row>)
    requires OwnedList(v, es, js) && SentFor(es, js, sent) && AllAnswered(v, es, broker, finalized, rows)
    ensures NewlySent(es, sent, rows)
  {
    forall i | 0 <= i < |rows| && rows[i].answer.New?
      ensures Message(rows[i].answer.quarantined, es[i]) in sent
    {
      NewIsInItsTopic(v, es, broker, finalized, js, sent, i, rows[i].answer.quarantined);
    }
  }

  /** Before anything is attempted, the leaders answered are those the claim settled. */
  ghost predicate Settled(v: View, es: seq<Event>, done: set<nat>) {
    forall j: nat :: j in done <==> j < |es| && First(es, j) == j && es[j].eventId in v
  }

  /** Every index holds the row of its own event. */
  ghost predicate AllAnswered(v: View, es: seq<Event>, broker: nat -> Delivery, finalized: bool, rows: seq<Row>) {
    && |rows| == |es|
    && forall i :: 0 <= i < |es| ==> rows[i] == Row(es[i].eventId, BatchAnswer(v, es, broker, finalized, i))
  }

  /** The check for unresolved rows at the end, which never fires. */
  method Assemble(es: seq<Event>, rows: seq<Option<Row>>, ghost v: View, ghost broker: nat -> Delivery,
                  ghost finalized: bool, ghost done: set<nat>)
    returns (out: Result<seq<Row>, Failure>)
    requires Filled(es, rows, Wanted(v, es, broker, finalized), done)
    requires forall j: nat :: j < |es| && First(es, j) == j ==> j in done
    ensures out.Ok? && AllAnswered(v, es, broker, finalized, out.value)
  {
    if exists i :: 0 <= i < |rows| && rows[i] == None {
      return Err(LeftUnresolved);
    }
    out := Ok(seq(|rows|, i requires 0 <= i < |rows| && rows[i].Some? => rows[i].value));
  }
}

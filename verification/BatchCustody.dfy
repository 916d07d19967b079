/** TokenEventCustody.accept and accept_many (api/ingestion.py) over the identity store, on values. */
module BatchCustody {
  import opened Prelude
  import opened IdentityStore

  // What each returns, publishes and leaves behind, and how far a batch is the same as accepting its events
  // one by one. Events are taken after _prepare_payload; the clock stands still during a call.

  /** `content` stands for the customer and the rest of the payload. */
  datatype Event = Event(eventId: Digest, fp: Digest, content: nat, suspicious: bool)

  /** A published record: which topic, and the event in its envelope (trace ids aside). */
  datatype Message = Message(quarantine: bool, event: Event)

  datatype Delivery = Acked | Overloaded | Refused | TimedOut

  datatype Answer =
    | New(quarantined: bool)          // accepted or quarantined, idempotent false
    | Idempotent(quarantined: bool)   // the same status with idempotent true
    | StillHeld                       // pending
    | InDoubt                         // uncertain
    | Buffered                        // kept in the outbox, or published but not finalized
    | Clash                           // conflict
    | Saturated                       // overloaded
    | Unreachable                     // unavailable

  datatype Row = Row(eventId: Digest, answer: Answer)

  datatype Failure = StoreUnavailable | LeftUnresolved | Overload

  datatype Clock = Clock(now: int, pendingTtl: int, uncertainTtl: int, acceptedTtl: int)

  /**
   How a call to Redis ends: whether its answer came back, and which fields' buckets it reached. It goes
   to each bucket on its own, so one that is not answered may have reached all, none or some.
   */
  datatype Call = Call(answered: bool, reached: Digest -> bool)

  /** The calls that end an accept: finalize, retries included, mark as uncertain, and release. */
  datatype Calls = Calls(finalize: Call, mark: Call, release: Call)

  ghost predicate ValidCall(c: Call) {
    c.answered ==> forall f :: c.reached(f)
  }

  ghost predicate ValidCalls(c: Calls) {
    ValidCall(c.finalize) && ValidCall(c.mark) && ValidCall(c.release)
  }

  const ANSWERED := Call(true, _ => true)
  const HEALTHY := Calls(ANSWERED, ANSWERED, ANSWERED)

  function MessageOf(e: Event): Message {
    Message(e.suspicious, e)
  }

  function ItemOf(e: Event): Item {
    Item(e.eventId, e.fp)
  }

  /** The answer to a request that is not the owner. */
  function AnswerOf(verdict: Claim): Answer {
    match verdict
    case Same => Idempotent(false)
    case StillPending => StillHeld
    case StillUncertain => InDoubt
    case _ => Clash
  }

  lemma {:induction false} SameView(v: View, w: View)
    requires forall f :: At(v, f) == At(w, f)
    ensures v == w
  {
    forall f
      ensures (f in v <==> f in w) && (f in v ==> v[f] == w[f])
    {
      assert At(v, f) == At(w, f);
    }
  }

  // ---------- first occurrences ----------

  ghost predicate IsFirst(es: seq<Event>, i: nat, j: nat)
    requires i < |es|
  {
    j <= i && es[j].eventId == es[i].eventId && forall k :: 0 <= k < j ==> es[k].eventId != es[i].eventId
  }

  /** The first event of the list with the id of event `i`. */
  ghost function First(es: seq<Event>, i: nat): (j: nat)
    requires i < |es|
    ensures IsFirst(es, i, j)
  {
    FirstExists(es, i, 0);
    var j: nat :| IsFirst(es, i, j);
    j
  }

  lemma {:induction false} FirstExists(es: seq<Event>, i: nat, k: nat)
    requires k <= i < |es|
    requires forall l :: 0 <= l < k ==> es[l].eventId != es[i].eventId
    ensures exists j: nat :: IsFirst(es, i, j)
    decreases i - k
  {
    if es[k].eventId == es[i].eventId {
      assert IsFirst(es, i, k);
    } else {
      FirstExists(es, i, k + 1);
    }
  }

  // ---------- accepting one event after the other, every publication acknowledged ----------

  /**
   One accept whose publication, if there is one, ends as `d`: the identities it leaves, its answer, and
   what it hands to the dispatcher. A release that is not answered raises.
   */
  function AcceptStep(v: View, e: Event, d: Delivery, calls: Calls, clock: Clock)
    : (View, Result<Answer, Failure>, seq<Message>)
  {
    var verdict := Verdict(EntryAt(v, e.eventId), e.fp);
    if verdict != Owner then (v, Ok(AnswerOf(verdict)), [])
    else
      var left := SlotLeft(e.eventId, e.fp, d, calls, clock);
      (if left == None then v else v[e.eventId := left.value],
       if Fails(d) && !calls.release.answered then Err(StoreUnavailable)
       else Ok(AnswerAfter(d, calls.finalize.answered, e.suspicious)),
       [MessageOf(e)])
  }

  /** Nothing was or will be delivered. */
  predicate Fails(d: Delivery) {
    d == Overloaded || d == Refused
  }

  /** What an owner whose publication ended as `d` answers. */
  function AnswerAfter(d: Delivery, finalized: bool, suspicious: bool): Answer {
    match d
    case Acked => if finalized then New(suspicious) else InDoubt
    case Overloaded => Saturated
    case TimedOut => InDoubt
    case Refused => Unreachable
  }

  /**
   What an owner leaves of its identity. An acknowledged event that could not be finalized is marked
   uncertain, which does nothing to an identity that the lost call did finalize.
   */
  function SlotLeft(f: Digest, fp: Digest, d: Delivery, calls: Calls, clock: Clock): Option<Slot> {
    var pending := Some(Slot(Entry(Pending, fp), clock.now + clock.pendingTtl));
    var uncertain := Some(Slot(Entry(Uncertain, fp), clock.now + clock.uncertainTtl));
    match d
    case Acked =>
      if calls.finalize.reached(f) then Some(Slot(Entry(Accepted, fp), clock.now + clock.acceptedTtl))
      else if !calls.finalize.answered && calls.mark.reached(f) then uncertain
      else pending
    case TimedOut => if calls.mark.reached(f) then uncertain else pending
    case _ => if calls.release.reached(f) then None else pending
  }

  /** Which answer one accept gives, and what it sends where, by what is stored and how the calls end. */
  lemma {:induction false} AcceptAnswers(v: View, e: Event, d: Delivery, calls: Calls, clock: Clock)
    ensures
      var held, fails := EntryAt(v, e.eventId), d == Overloaded || d == Refused;
      var (_, out, sent) := AcceptStep(v, e, d, calls, clock);
      && sent == (if held == None then [Message(e.suspicious, e)] else [])
      && (out == Err(StoreUnavailable) <==> out.Err?)
      && (out.Err? <==> held == None && fails && !calls.release.answered)
      && (out == Ok(New(e.suspicious)) <==> held == None && d == Acked && calls.finalize.answered)
      && (out == Ok(Saturated) <==> held == None && d == Overloaded && calls.release.answered)
      && (out == Ok(Unreachable) <==> held == None && d == Refused && calls.release.answered)
      && (out == Ok(InDoubt) <==>
            || held == Some(Entry(Uncertain, e.fp))
            || (held == None && (d == TimedOut || (d == Acked && !calls.finalize.answered))))
      && (out == Ok(Idempotent(false)) <==> held == Some(Entry(Accepted, e.fp)))
      && (out == Ok(StillHeld) <==> held == Some(Entry(Pending, e.fp)))
      && (out == Ok(Clash) <==> held.Some? && held.value.fp != e.fp)
  {
    VerdictByStatus(EntryAt(v, e.eventId), e.fp);
  }

  /** An entry as it is stored now, for as long as its status lasts. */
  function LastsFor(entry: Entry, clock: Clock): Slot {
    var ttl := match entry.status
      case Pending => clock.pendingTtl
      case Uncertain => clock.uncertainTtl
      case Accepted => clock.acceptedTtl;
    Slot(entry, clock.now + ttl)
  }

  /** What one accept leaves: only an owner's identity changes, and its status says how far it came. */
  lemma {:induction false} AcceptLeaves(v: View, e: Event, d: Delivery, calls: Calls, clock: Clock)
    requires ValidCalls(calls)
    ensures
      var w := AcceptStep(v, e, d, calls, clock).0;
      && (e.eventId in v ==> w == v)
      && (forall f :: f != e.eventId ==> At(w, f) == At(v, f))
      && (e.eventId !in v ==>
            var left := At(w, e.eventId);
            && (left == None <==> (d == Overloaded || d == Refused) && calls.release.reached(e.eventId))
            && (left.Some? ==> left.value == LastsFor(Entry(left.value.entry.status, e.fp), clock))
            && (left.Some? ==> (left.value.entry.status == Accepted <==>
                  d == Acked && calls.finalize.reached(e.eventId)))
            && (left.Some? ==> (left.value.entry.status == Uncertain <==>
                  && calls.mark.reached(e.eventId)
                  && (d == TimedOut || (d == Acked && !calls.finalize.reached(e.eventId))))))
  {
  }

  /** Every publication acknowledged, every call answered. */
  function AcceptAll(v: View, es: seq<Event>, clock: Clock)
    : (r: (View, seq<Result<Answer, Failure>>, seq<Message>))
    ensures |r.1| == |es|
  {
    if es == [] then (v, [], [])
    else
      var before := AcceptAll(v, es[..|es| - 1], clock);
      var last := AcceptStep(before.0, es[|es| - 1], Acked, HEALTHY, clock);
      (last.0, before.1 + [last.1], before.2 + last.2)
  }

  // ---------- what a batch does ----------

  /** Does the batch publish event `i`? */
  ghost predicate Owned(v: View, es: seq<Event>, i: nat)
    requires i < |es|
  {
    First(es, i) == i && es[i].eventId !in v
  }

  /** The answer at index `i`, given the broker's outcome per event and whether finalize was answered. */
  ghost function BatchAnswer(v: View, es: seq<Event>, broker: nat -> Delivery, finalized: bool, i: nat): Answer
    requires i < |es|
  {
    var j := First(es, i);
    if es[i].fp != es[j].fp then Clash
    else if es[j].eventId in v then AnswerOf(Verdict(EntryAt(v, es[j].eventId), es[j].fp))
    else
      var d := broker(j);
      if d == Acked && finalized && i != j then Idempotent(es[j].suspicious)
      else AnswerAfter(d, finalized, es[j].suspicious)
  }

  ghost function BatchMessages(v: View, es: seq<Event>): seq<Message> {
    if es == [] then []
    else
      var n := |es| - 1;
      BatchMessages(v, es[..n]) + if Owned(v, es, n) then [MessageOf(es[n])] else []
  }

  /** Which answer a batch gives at each index, by what is stored and how the first of its id ended. */
  lemma {:induction false} BatchAnswers(
    v: View, es: seq<Event>, broker: nat -> Delivery, finalized: bool, i: nat, q: bool)
    requires i < |es|
    ensures
      var first := First(es, i);
      var held, d, answer := EntryAt(v, es[i].eventId), broker(first), BatchAnswer(v, es, broker, finalized, i);
      var same := es[i].fp == es[first].fp;
      && (answer == New(q) <==>
            Owned(v, es, i) && d == Acked && finalized && (q <==> es[i].suspicious))
      && (answer == Idempotent(q) <==>
            || (same && held == Some(Entry(Accepted, es[i].fp)) && !q)
            || (same && held == None && first != i && d == Acked && finalized && (q <==> es[first].suspicious)))
      && (answer == StillHeld <==> same && held == Some(Entry(Pending, es[i].fp)))
      && (answer == InDoubt <==>
            || (same && held == Some(Entry(Uncertain, es[i].fp)))
            || (same && held == None && (d == TimedOut || (d == Acked && !finalized))))
      && (answer == Saturated <==> same && held == None && d == Overloaded)
      && (answer == Unreachable <==> same && held == None && d == Refused)
      && (answer == Clash <==> !same || (held.Some? && held.value.fp != es[i].fp))
  {
    VerdictByStatus(EntryAt(v, es[i].eventId), es[i].fp);
  }

  /** Each message is the event of its index, and quarantined exactly when that event is suspicious. */
  ghost predicate SentFor(es: seq<Event>, js: seq<nat>, ms: seq<Message>) {
    && |ms| == |js|
    && forall k :: 0 <= k < |js| ==>
         js[k] < |es| && ms[k].event == es[js[k]] && (ms[k].quarantine <==> es[js[k]].suspicious)
  }

  /** An owned event is sent once, to the topic its answer names. */
  lemma {:induction false} NewIsInItsTopic(
    v: View, es: seq<Event>, broker: nat -> Delivery, finalized: bool, js: seq<nat>, ms: seq<Message>, i: nat, q: bool)
    requires SentFor(es, js, ms) && i < |es| && BatchAnswer(v, es, broker, finalized, i) == New(q)
    requires Ascending(es, js) && forall j: nat :: j in js <==> j < |es| && Owned(v, es, j)
    ensures exists k :: 0 <= k < |ms| && js[k] == i && ms[k] == Message(q, es[i])
    ensures forall k, l :: 0 <= k < |ms| && 0 <= l < |ms| && ms[k].event.eventId == ms[l].event.eventId ==> k == l
  {
    BatchAnswers(v, es, broker, finalized, i, q);
    var k :| 0 <= k < |js| && js[k] == i;
    assert ms[k] == Message(q, es[i]);
    forall k, l | 0 <= k < l < |ms|
      ensures ms[k].event.eventId != ms[l].event.eventId
    {
      assert js[k] in js && js[l] in js && js[k] < js[l];
      assert Owned(v, es, js[l]);
    }
  }

  /** The live identities a batch leaves, however its publications and its calls end. */
  ghost predicate BatchLeaves(
    v: View, es: seq<Event>, broker: nat -> Delivery, calls: Calls, clock: Clock, w: View)
  {
    && (forall f :: f in v ==> f in w && w[f] == v[f])
    && (forall i {:trigger Owned(v, es, i)} :: 0 <= i < |es| && Owned(v, es, i) ==>
          At(w, es[i].eventId) == SlotLeft(es[i].eventId, es[i].fp, broker(i), calls, clock))
    && (forall f :: f in w && f !in v ==> exists i :: 0 <= i < |es| && es[i].eventId == f)
  }

  function At(v: View, f: Digest): Option<Slot> {
    if f in v then Some(v[f]) else None
  }

  // ---------- batch against sequence ----------

  lemma {:induction false} FirstInPrefix(es: seq<Event>, n: nat, i: nat)
    requires i < n <= |es|
    ensures First(es[..n], i) == First(es, i)
  {
    var j, k := First(es[..n], i), First(es, i);
    assert es[..n][j] == es[j] && es[..n][k] == es[k];
    assert !(j < k) && !(k < j);
  }

  /** The fingerprint of the first event with id `f`. */
  ghost function FirstFp(es: seq<Event>, f: Digest): Option<Digest> {
    if es == [] then None
    else
      var n := |es| - 1;
      var before := FirstFp(es[..n], f);
      if before == None && es[n].eventId == f then Some(es[n].fp) else before
  }

  lemma {:induction false} FirstFpIsFirst(es: seq<Event>, i: nat)
    requires i < |es|
    ensures FirstFp(es, es[i].eventId) == Some(es[First(es, i)].fp)
    decreases |es|
  {
    var n := |es| - 1;
    var j := First(es, i);
    if j < n {
      FirstFpIsFirst(es[..n], j);
      FirstInPrefix(es, n, j);
      assert First(es, j) == j;
    } else {
      NoFirstFp(es[..n], es[n].eventId);
    }
  }

  lemma {:induction false} NoFirstFp(es: seq<Event>, f: Digest)
    ensures FirstFp(es, f) == None <==> forall i :: 0 <= i < |es| ==> es[i].eventId != f
  {
    if es != [] {
      var n := |es| - 1;
      NoFirstFp(es[..n], f);
      assert forall i :: 0 <= i < n ==> es[..n][i] == es[i];
    }
  }

  /** The identity `f` after accepting the events one by one: as before, or the first event's. */
  ghost function SlotOneByOne(v: View, es: seq<Event>, clock: Clock, f: Digest): Option<Slot> {
    if f in v then Some(v[f])
    else
      match FirstFp(es, f)
      case None => None
      case Some(fp) => Some(Slot(Entry(Accepted, fp), clock.now + clock.acceptedTtl))
  }

  lemma {:induction false} AcceptAllView(v: View, es: seq<Event>, clock: Clock, f: Digest)
    ensures At(AcceptAll(v, es, clock).0, f) == SlotOneByOne(v, es, clock, f)
  {
    if es != [] {
      AcceptAllView(v, es[..|es| - 1], clock, f);
    }
  }

  const ACKNOWLEDGED: nat -> Delivery := _ => Acked

  /** Where a batch answers differently from accepting the events in turn. */
  ghost predicate AnswersDiffer(v: View, es: seq<Event>, i: nat)
    requires i < |es|
  {
    var e, first := es[i], es[First(es, i)];
    if e.fp != first.fp then e.eventId in v && Verdict(EntryAt(v, e.eventId), e.fp) != Conflict
    else e.eventId !in v && First(es, i) != i && first.suspicious
  }

  /** Accepting in turn and the batch answer event `i` alike. */
  ghost predicate SameAnswer(v: View, es: seq<Event>, clock: Clock, i: nat)
    requires i < |es|
  {
    AcceptAll(v, es, clock).1[i] == Ok(BatchAnswer(v, es, ACKNOWLEDGED, true, i))
  }

  /**
   With every publication acknowledged, a batch publishes what accepting its events in turn
   publishes, in the same order, and leaves the same live identities. Its answers are the same
   except in exactly two cases: a repeat of a quarantined event (the batch repeats `quarantined`,
   a later accept says `accepted`), and an event whose id an earlier event of the batch already
   used with another payload while the store knows the id with its own (the batch says conflict).
   */
  lemma {:induction false} BatchIsOneByOne(v: View, es: seq<Event>, clock: Clock)
    ensures BatchMessages(v, es) == AcceptAll(v, es, clock).2
    ensures BatchLeaves(v, es, ACKNOWLEDGED, HEALTHY, clock, AcceptAll(v, es, clock).0)
    ensures forall i :: 0 <= i < |es| ==>
              (SameAnswer(v, es, clock, i) <==> !AnswersDiffer(v, es, i))
  {
    OneByOneMessages(v, es, clock);
    OneByOneView(v, es, clock);
    forall i | 0 <= i < |es|
      ensures SameAnswer(v, es, clock, i) <==> !AnswersDiffer(v, es, i)
    {
      OneByOneAnswer(v, es, clock, i);
    }
  }

  /** BatchLeaves says all there is to say: two views it allows are the same. */
  lemma {:induction false} BatchLeavesOneView(
    v: View, es: seq<Event>, broker: nat -> Delivery, calls: Calls, clock: Clock, w: View, x: View)
    requires BatchLeaves(v, es, broker, calls, clock, w) && BatchLeaves(v, es, broker, calls, clock, x)
    ensures w == x
  {
    forall f
      ensures At(w, f) == At(x, f)
    {
      if f !in v && (f in w || f in x) {
        var i :| 0 <= i < |es| && es[i].eventId == f;
        var j := First(es, i);
        FirstIsShared(es, i, j);
        assert Owned(v, es, j);
      }
    }
    SameView(w, x);
  }

  predicate SaysAccepted(a: Answer) {
    a.New? || a.Idempotent?
  }

  /**
   However publications and calls end: what is answered as accepted is stored as accepted with that
   payload, and an acknowledged event leaves its identity taken, so that no retry can claim it.
   */
  lemma {:induction false} AnswersAreKept(
    v: View, es: seq<Event>, broker: nat -> Delivery, calls: Calls, clock: Clock, w: View, i: nat)
    requires ValidCalls(calls) && BatchLeaves(v, es, broker, calls, clock, w) && i < |es|
    ensures SaysAccepted(BatchAnswer(v, es, broker, calls.finalize.answered, i)) ==>
      EntryAt(w, es[i].eventId) == Some(Entry(Accepted, es[i].fp))
    ensures Owned(v, es, First(es, i)) && broker(First(es, i)) == Acked ==>
      EntryAt(w, es[i].eventId).Some? && EntryAt(w, es[i].eventId).value.fp == es[First(es, i)].fp
  {
    var j := First(es, i);
    FirstIsShared(es, i, j);
    if es[j].eventId !in v {
      assert Owned(v, es, j);
      assert At(w, es[j].eventId) == SlotLeft(es[j].eventId, es[j].fp, broker(j), calls, clock);
    }
  }

  lemma {:induction false} OneByOneView(v: View, es: seq<Event>, clock: Clock)
    ensures BatchLeaves(v, es, ACKNOWLEDGED, HEALTHY, clock, AcceptAll(v, es, clock).0)
  {
    var w := AcceptAll(v, es, clock).0;
    forall f
      ensures At(w, f) == SlotOneByOne(v, es, clock, f)
      ensures f in w && f !in v ==> exists i :: 0 <= i < |es| && es[i].eventId == f
    {
      AcceptAllView(v, es, clock, f);
      NoFirstFp(es, f);
    }
    forall i | 0 <= i < |es| && Owned(v, es, i)
      ensures At(w, es[i].eventId) == SlotLeft(es[i].eventId, es[i].fp, Acked, HEALTHY, clock)
    {
      FirstFpIsFirst(es, i);
    }
    assert forall f :: f in v ==> At(w, f) == SlotOneByOne(v, es, clock, f);
  }

  lemma {:induction false} OneByOneMessages(v: View, es: seq<Event>, clock: Clock)
    ensures BatchMessages(v, es) == AcceptAll(v, es, clock).2
  {
    if es != [] {
      var n := |es| - 1;
      OneByOneMessages(v, es[..n], clock);
      AcceptAllView(v, es[..n], clock, es[n].eventId);
      LastEvent(v, es, clock, AcceptAll(v, es[..n], clock).0);
    }
  }

  lemma {:induction false} OneByOneAnswer(v: View, es: seq<Event>, clock: Clock, i: nat)
    requires i < |es|
    ensures SameAnswer(v, es, clock, i) <==> !AnswersDiffer(v, es, i)
    decreases |es|
  {
    var n := |es| - 1;
    if i == n {
      AcceptAllView(v, es[..n], clock, es[n].eventId);
      LastEvent(v, es, clock, AcceptAll(v, es[..n], clock).0);
    } else {
      OneByOneAnswer(v, es[..n], clock, i);
      FirstInPrefix(es, n, i);
      assert AcceptAll(v, es, clock).1[i] == AcceptAll(v, es[..n], clock).1[i];
    }
  }

  /** The last event of a list, accepted in the view its predecessors leave. */
  lemma {:induction false} LastEvent(v: View, es: seq<Event>, clock: Clock, w: View)
    requires |es| > 0
    requires At(w, es[|es| - 1].eventId) == SlotOneByOne(v, es[..|es| - 1], clock, es[|es| - 1].eventId)
    ensures var n := |es| - 1; var step := AcceptStep(w, es[n], Acked, HEALTHY, clock);
      && (step.2 == if Owned(v, es, n) then [MessageOf(es[n])] else [])
      && (step.1 == Ok(BatchAnswer(v, es, ACKNOWLEDGED, true, n)) <==> !AnswersDiffer(v, es, n))
  {
    var n := |es| - 1;
    var j, f := First(es, n), es[n].eventId;
    if j < n {
      assert es[..n][j].eventId == f;
      FirstFpIsFirst(es[..n], j);
      FirstInPrefix(es, n, j);
      assert First(es, j) == j;
    } else {
      NoFirstFp(es[..n], f);
      assert forall i :: 0 <= i < n ==> es[..n][i] == es[i];
    }
    assert EntryAt(w, f) == if At(w, f) == None then None else Some(At(w, f).value.entry);
  }

  // ---------- the loops of _accept_many_impl ----------

  /** Exactly the answered slots are filled, each with its own id and the answer it should have. */
  ghost predicate Filled(es: seq<Event>, rows: seq<Option<Row>>, want: nat -> Answer, done: set<nat>) {
    |rows| == |es| && forall i :: 0 <= i < |es| ==> rows[i] == RightRow(es, want, done, i)
  }

  /** A slot is filled once its id clashed inside the batch or the first event of its id is done. */
  ghost function RightRow(es: seq<Event>, want: nat -> Answer, done: set<nat>, i: nat): Option<Row>
    requires i < |es|
  {
    if es[i].fp != es[First(es, i)].fp || First(es, i) in done then Some(Row(es[i].eventId, want(i))) else None
  }

  /** Among the first `n` events, the later ones with the id and the payload of event `j`. */
  ghost function Aliases(es: seq<Event>, n: nat, j: nat): seq<nat>
    requires n <= |es| && j < |es|
  {
    if n == 0 then []
    else
      var i := n - 1;
      Aliases(es, i, j) + if First(es, i) == j && i != j && es[i].fp == es[j].fp then [i] else []
  }

  predicate IsAlias(es: seq<Event>, n: nat, j: nat, i: nat)
    requires n <= |es| && j < |es|
  {
    i < n && i != j && es[i].eventId == es[j].eventId && es[i].fp == es[j].fp
  }

  lemma {:induction false} AliasesHold(es: seq<Event>, n: nat, j: nat, i: nat)
    requires n <= |es| && j < |es| && First(es, j) == j
    ensures i in Aliases(es, n, j) <==> IsAlias(es, n, j, i)
  {
    if n > 0 {
      AliasesHold(es, n - 1, j, i);
      var last := n - 1;
      if es[last].eventId == es[j].eventId {
        FirstIsShared(es, last, j);
      }
      assert First(es, last) == j && last != j && es[last].fp == es[j].fp <==> IsAlias(es, n, j, last);
    }
  }

  lemma {:induction false} AliasesAscend(es: seq<Event>, n: nat, j: nat)
    requires n <= |es| && j < |es|
    ensures forall a :: 0 <= a < |Aliases(es, n, j)| ==> Aliases(es, n, j)[a] < n
    ensures forall a, b :: 0 <= a < b < |Aliases(es, n, j)| ==> Aliases(es, n, j)[a] < Aliases(es, n, j)[b]
  {
    if n > 0 {
      AliasesAscend(es, n - 1, j);
    }
  }

  lemma {:induction false} AliasesAre(es: seq<Event>, n: nat, j: nat)
    requires n <= |es| && j < |es| && First(es, j) == j
    ensures forall i: nat :: i in Aliases(es, n, j) <==> IsAlias(es, n, j, i)
    ensures forall a :: 0 <= a < |Aliases(es, n, j)| ==> IsAlias(es, n, j, Aliases(es, n, j)[a])
    ensures forall a, b :: 0 <= a < b < |Aliases(es, n, j)| ==> Aliases(es, n, j)[a] < Aliases(es, n, j)[b]
  {
    AliasesAscend(es, n, j);
    forall i: nat
      ensures i in Aliases(es, n, j) <==> IsAlias(es, n, j, i)
    {
      AliasesHold(es, n, j, i);
    }
    assert forall a :: 0 <= a < |Aliases(es, n, j)| ==> Aliases(es, n, j)[a] in Aliases(es, n, j);
  }

  /** The first occurrences among the first `n` events, in order. */
  ghost function Leaders(es: seq<Event>, n: nat): seq<nat>
    requires n <= |es|
  {
    if n == 0 then []
    else Leaders(es, n - 1) + if First(es, n - 1) == n - 1 then [n - 1] else []
  }

  lemma {:induction false} LeadersAre(es: seq<Event>, n: nat)
    requires n <= |es|
    ensures forall j: nat :: j in Leaders(es, n) <==> j < n && First(es, j) == j
    ensures forall a, b :: 0 <= a < b < |Leaders(es, n)| ==> Leaders(es, n)[a] < Leaders(es, n)[b]
  {
    if n > 0 {
      LeadersAre(es, n - 1);
      var before := Leaders(es, n - 1);
      assert forall a :: 0 <= a < |before| ==> before[a] in before;
    }
  }

  ghost predicate Ascending(es: seq<Event>, js: seq<nat>) {
    && (forall k :: 0 <= k < |js| ==> js[k] < |es|)
    && (forall a, b :: 0 <= a < b < |js| ==> js[a] < js[b])
  }

  /** Fill one slot and the slots of its aliases; all of them were still empty. */
  method Fill(es: seq<Event>, rows: seq<Option<Row>>, j: nat, aliases: seq<nat>, answer: Answer, aliasAnswer: Answer,
              ghost want: nat -> Answer, ghost done: set<nat>)
    returns (after: seq<Option<Row>>)
    requires Filled(es, rows, want, done)
    requires j < |es| && First(es, j) == j && j !in done && aliases == Aliases(es, |es|, j)
    requires want(j) == answer && forall i :: i in aliases ==> want(i) == aliasAnswer
    ensures Filled(es, after, want, done + {j})
  {
    AliasesAre(es, |es|, j);
    assert rows[j] == RightRow(es, want, done, j) == None;
    after := FillAliases(es, rows[j := Some(Row(es[j].eventId, answer))], aliases, Row(es[j].eventId, aliasAnswer));
    FillDone(es, rows, after, j, aliases, want, done);
  }

  /** The loop over the aliases of a leader. */
  method FillAliases(es: seq<Event>, rows: seq<Option<Row>>, aliases: seq<nat>, row: Row)
    returns (after: seq<Option<Row>>)
    requires |rows| == |es| && Ascending(es, aliases)
    ensures |after| == |es|
    ensures forall l :: 0 <= l < |aliases| ==> after[aliases[l]] == Some(row)
    ensures forall i: nat :: i < |es| && i !in aliases ==> after[i] == rows[i]
  {
    after := rows;
    for k := 0 to |aliases|
      invariant |after| == |es|
      invariant forall l :: 0 <= l < k ==> after[aliases[l]] == Some(row)
      invariant forall i: nat :: i < |es| && i !in aliases ==> after[i] == rows[i]
    {
      after := after[aliases[k] := Some(row)];
    }
  }

  lemma {:induction false} FillDone(
    es: seq<Event>, rows: seq<Option<Row>>, after: seq<Option<Row>>, j: nat, aliases: seq<nat>,
    want: nat -> Answer, done: set<nat>)
    requires Filled(es, rows, want, done) && |after| == |es|
    requires j < |es| && First(es, j) == j && aliases == Aliases(es, |es|, j)
    requires after[j] == Some(Row(es[j].eventId, want(j)))
    requires forall l :: 0 <= l < |aliases| ==>
               aliases[l] < |es| && after[aliases[l]] == Some(Row(es[j].eventId, want(aliases[l])))
    requires forall i :: 0 <= i < |es| && i != j && i !in aliases ==> after[i] == rows[i]
    ensures Filled(es, after, want, done + {j})
  {
    AliasesAre(es, |es|, j);
    forall i | 0 <= i < |es|
      ensures after[i] == RightRow(es, want, done + {j}, i)
    {
      if IsAlias(es, |es|, j, i) {
        FirstIsShared(es, i, j);
        var l :| 0 <= l < |aliases| && aliases[l] == i;
      } else if First(es, i) == j && i != j {
        assert es[i].fp != es[j].fp;
      }
    }
  }

  /** What the first loop has built after `n` events: repeats are aliases, reuses with another payload clash. */
  ghost predicate Scanned(es: seq<Event>, n: nat, want: nat -> Answer, rows: seq<Option<Row>>,
                          unique: seq<nat>, aliases: map<nat, seq<nat>>, seen: map<Digest, (Digest, nat)>)
  {
    && n <= |es|
    && RowsUpTo(es, n, rows, want)
    && unique == Leaders(es, n)
    && AliasesUpTo(es, n, aliases)
    && SeenUpTo(es, n, seen)
  }

  /** The first loop of _accept_many_impl. */
  method Deduplicate(es: seq<Event>, ghost want: nat -> Answer)
    returns (rows: seq<Option<Row>>, unique: seq<nat>, aliases: map<nat, seq<nat>>)
    requires forall i :: 0 <= i < |es| && es[i].fp != es[First(es, i)].fp ==> want(i) == Clash
    ensures Filled(es, rows, want, {})
    ensures unique == Leaders(es, |es|) && AliasesUpTo(es, |es|, aliases)
  {
    rows, unique, aliases := seq(|es|, _ => None), [], map[];
    var firsts: map<Digest, (Digest, nat)> := map[];
    for i := 0 to |es|
      invariant Scanned(es, i, want, rows, unique, aliases, firsts)
    {
      rows, unique, aliases, firsts := DeduplicateOne(es, i, want, rows, unique, aliases, firsts);
    }
  }

  /** One turn of the first loop. */
  method DeduplicateOne(es: seq<Event>, i: nat, ghost want: nat -> Answer, rows0: seq<Option<Row>>,
                        unique0: seq<nat>, aliases0: map<nat, seq<nat>>, seen0: map<Digest, (Digest, nat)>)
    returns (rows: seq<Option<Row>>, unique: seq<nat>, aliases: map<nat, seq<nat>>, seen: map<Digest, (Digest, nat)>)
    requires i < |es| && Scanned(es, i, want, rows0, unique0, aliases0, seen0)
    requires es[i].fp != es[First(es, i)].fp ==> want(i) == Clash
    ensures Scanned(es, i + 1, want, rows, unique, aliases, seen)
  {
    rows, unique, aliases, seen := rows0, unique0, aliases0, seen0;
    var e := es[i];
    if e.eventId !in seen {
      ScanLeader(es, i, want, rows, unique, aliases, seen);
      seen := seen[e.eventId := (e.fp, i)];
      unique := unique + [i];
      aliases := aliases[i := []];
    } else {
      var (fp, j) := seen[e.eventId];
      ScanRepeat(es, i, want, rows, unique, aliases, seen);
      if fp == e.fp {
        aliases := aliases[j := aliases[j] + [i]];
      } else {
        rows := rows[i := Some(Row(e.eventId, Clash))];
      }
    }
  }

  lemma {:induction false} ScanLeader(es: seq<Event>, i: nat, want: nat -> Answer, rows: seq<Option<Row>>,
                                      unique: seq<nat>, aliases: map<nat, seq<nat>>, seen: map<Digest, (Digest, nat)>)
    requires i < |es| && Scanned(es, i, want, rows, unique, aliases, seen) && es[i].eventId !in seen
    ensures Scanned(es, i + 1, want, rows, unique + [i], aliases[i := []], seen[es[i].eventId := (es[i].fp, i)])
  {
    FirstIsSeen(es, i, seen);
    SeenStep(es, i, seen);
    AliasesNewLeader(es, i, aliases);
  }

  lemma {:induction false} ScanRepeat(es: seq<Event>, i: nat, want: nat -> Answer, rows: seq<Option<Row>>,
                                      unique: seq<nat>, aliases: map<nat, seq<nat>>, seen: map<Digest, (Digest, nat)>)
    requires i < |es| && Scanned(es, i, want, rows, unique, aliases, seen) && es[i].eventId in seen
    requires es[i].fp != es[First(es, i)].fp ==> want(i) == Clash
    ensures
      var (fp, j) := seen[es[i].eventId];
      && j in aliases
      && (fp == es[i].fp ==> Scanned(es, i + 1, want, rows, unique, aliases[j := aliases[j] + [i]], seen))
      && (fp != es[i].fp ==>
            Scanned(es, i + 1, want, rows[i := Some(Row(es[i].eventId, Clash))], unique, aliases, seen))
  {
    FirstIsSeen(es, i, seen);
    SeenStep(es, i, seen);
    AliasesRepeat(es, i, seen[es[i].eventId].1, aliases);
  }

  ghost predicate RowsUpTo(es: seq<Event>, n: nat, rows: seq<Option<Row>>, want: nat -> Answer) {
    |rows| == |es| && forall k :: 0 <= k < |es| ==> rows[k] == if k < n then RightRow(es, want, {}, k) else None
  }

  ghost predicate AliasesUpTo(es: seq<Event>, n: nat, aliases: map<nat, seq<nat>>)
    requires n <= |es|
  {
    && (forall j: nat :: j in aliases <==> j < n && First(es, j) == j)
    && (forall j :: j in aliases ==> aliases[j] == Aliases(es, n, j))
  }

  /** seen_in_batch holds, per id, the first event with it. */
  ghost predicate SeenUpTo(es: seq<Event>, n: nat, seen: map<Digest, (Digest, nat)>)
    requires n <= |es|
  {
    && (forall f :: f in seen ==> seen[f].1 < n && es[seen[f].1].eventId == f && seen[f].0 == es[seen[f].1].fp
                                  && First(es, seen[f].1) == seen[f].1)
    && (forall k :: 0 <= k < n ==> es[k].eventId in seen)
  }

  lemma {:induction false} FirstIsSeen(es: seq<Event>, i: nat, seen: map<Digest, (Digest, nat)>)
    requires i < |es| && SeenUpTo(es, i, seen)
    ensures First(es, i) == if es[i].eventId in seen then seen[es[i].eventId].1 else i
  {
    if es[i].eventId in seen {
      FirstIsShared(es, i, seen[es[i].eventId].1);
    }
  }

  lemma {:induction false} SeenStep(es: seq<Event>, i: nat, seen: map<Digest, (Digest, nat)>)
    requires i < |es| && SeenUpTo(es, i, seen)
    ensures es[i].eventId !in seen ==> SeenUpTo(es, i + 1, seen[es[i].eventId := (es[i].fp, i)])
    ensures es[i].eventId in seen ==> SeenUpTo(es, i + 1, seen)
  {
    FirstIsSeen(es, i, seen);
  }

  lemma {:induction false} AliasesNewLeader(es: seq<Event>, i: nat, aliases: map<nat, seq<nat>>)
    requires i < |es| && First(es, i) == i && AliasesUpTo(es, i, aliases)
    ensures AliasesUpTo(es, i + 1, aliases[i := []])
  {
    NoAliasesBefore(es, i, i);
  }

  lemma {:induction false} NoAliasesBefore(es: seq<Event>, n: nat, j: nat)
    requires n <= j < |es|
    ensures Aliases(es, n, j) == []
  {
    if n > 0 {
      NoAliasesBefore(es, n - 1, j);
    }
  }

  lemma {:induction false} AliasesRepeat(es: seq<Event>, i: nat, j: nat, aliases: map<nat, seq<nat>>)
    requires j < i < |es| && First(es, i) == j && First(es, j) == j && AliasesUpTo(es, i, aliases)
    ensures es[i].fp == es[j].fp ==> AliasesUpTo(es, i + 1, aliases[j := aliases[j] + [i]])
    ensures es[i].fp != es[j].fp ==> AliasesUpTo(es, i + 1, aliases)
  {
    forall k | k in aliases
      ensures Aliases(es, i + 1, k) == aliases[k] + if k == j && es[i].fp == es[j].fp then [i] else []
    {
      assert aliases[k] == Aliases(es, i, k);
    }
  }

  lemma {:induction false} FirstIsShared(es: seq<Event>, i: nat, j: nat)
    requires i < |es| && j < |es| && es[i].eventId == es[j].eventId
    ensures First(es, i) == First(es, j)
  {
    var a, b := First(es, i), First(es, j);
    assert !(a < b) && !(b < a);
  }

  /** The answer a leader's aliases should get, beside its own. */
  ghost function AliasAnswer(v: View, es: seq<Event>, broker: nat -> Delivery, finalized: bool, j: nat): Answer
    requires j < |es|
  {
    if es[j].eventId !in v && broker(j) == Acked && finalized then Idempotent(es[j].suspicious)
    else BatchAnswer(v, es, broker, finalized, j)
  }

  lemma {:induction false} AliasesWant(v: View, es: seq<Event>, broker: nat -> Delivery, finalized: bool, j: nat)
    requires j < |es| && First(es, j) == j
    ensures forall i :: i in Aliases(es, |es|, j) ==>
              i < |es| && BatchAnswer(v, es, broker, finalized, i) == AliasAnswer(v, es, broker, finalized, j)
  {
    AliasesAre(es, |es|, j);
    forall i | i in Aliases(es, |es|, j)
      ensures i < |es| && BatchAnswer(v, es, broker, finalized, i) == AliasAnswer(v, es, broker, finalized, j)
    {
      assert IsAlias(es, |es|, j, i);
      FirstIsShared(es, i, j);
    }
  }

  ghost function Wanted(v: View, es: seq<Event>, broker: nat -> Delivery, finalized: bool): nat -> Answer {
    (i: nat) => if i < |es| then BatchAnswer(v, es, broker, finalized, i) else Clash
  }

  /** Answer leader `j` and its aliases. */
  method AnswerLeader(es: seq<Event>, rows: seq<Option<Row>>, j: nat, aliases: map<nat, seq<nat>>,
                      answer: Answer, aliasAnswer: Answer,
                      ghost v: View, ghost broker: nat -> Delivery, ghost finalized: bool, ghost done: set<nat>)
    returns (after: seq<Option<Row>>)
    requires Filled(es, rows, Wanted(v, es, broker, finalized), done)
    requires j < |es| && First(es, j) == j && j !in done && AliasesUpTo(es, |es|, aliases)
    requires answer == BatchAnswer(v, es, broker, finalized, j)
    requires aliasAnswer == AliasAnswer(v, es, broker, finalized, j)
    ensures Filled(es, after, Wanted(v, es, broker, finalized), done + {j})
  {
    AliasesWant(v, es, broker, finalized, j);
    after := Fill(es, rows, j, aliases[j], answer, aliasAnswer, Wanted(v, es, broker, finalized), done);
  }

  // ---------- the scripts on distinct identities ----------

  ghost predicate DistinctFields(items: seq<Item>) {
    forall a, b :: 0 <= a < b < |items| ==> items[a].field != items[b].field
  }

  lemma {:induction false} ClaimElsewhere(v: View, items: seq<Item>, expiry: int, f: Digest)
    requires forall k :: 0 <= k < |items| ==> items[k].field != f
    ensures At(ClaimSeq(v, items, expiry).0, f) == At(v, f)
  {
    if items != [] {
      ClaimElsewhere(v, items[..|items| - 1], expiry, f);
    }
  }

  lemma {:induction false} ClaimDistinctAt(v: View, items: seq<Item>, expiry: int, k: nat)
    requires DistinctFields(items) && k < |items|
    ensures var c := ClaimSeq(v, items, expiry); var it := items[k];
      && c.1[k] == Verdict(EntryAt(v, it.field), it.fp)
      && At(c.0, it.field) == if it.field in v then Some(v[it.field]) else Some(Slot(Entry(Pending, it.fp), expiry))
  {
    var n := |items| - 1;
    var before := ClaimSeq(v, items[..n], expiry).0;
    if k == n {
      ClaimElsewhere(v, items[..n], expiry, items[n].field);
      assert At(before, items[n].field) == At(v, items[n].field);
    } else {
      ClaimDistinctAt(v, items[..n], expiry, k);
      assert items[k].field != items[n].field;
    }
  }

  ghost predicate AllMovable(v: View, items: seq<Item>, target: Status) {
    forall k :: 0 <= k < |items| ==>
      items[k].field in v && Moves(v[items[k].field].entry, items[k].fp, target)
  }

  /** The items whose fields a call reached. */
  function Reached(items: seq<Item>, reached: Digest -> bool): seq<Item> {
    if items == [] then []
    else
      var last := items[|items| - 1];
      Reached(items[..|items| - 1], reached) + if reached(last.field) then [last] else []
  }

  lemma {:induction false} ReachedAll(items: seq<Item>, reached: Digest -> bool)
    requires forall f :: reached(f)
    ensures Reached(items, reached) == items
  {
    if items != [] {
      ReachedAll(items[..|items| - 1], reached);
    }
  }

  function Moved(slot: Option<Slot>, fp: Digest, target: Status, expiry: int): Option<Slot> {
    if slot.Some? && Moves(slot.value.entry, fp, target) then Some(Slot(Entry(target, fp), expiry)) else slot
  }

  lemma {:induction false} TransitionSnoc(v: View, items: seq<Item>, it: Item, target: Status, expiry: int, f: Digest)
    ensures
      var before := At(TransitionSeq(v, items, target, expiry).0, f);
      At(TransitionSeq(v, items + [it], target, expiry).0, f) ==
        if it.field == f then Moved(before, it.fp, target, expiry) else before
  {
    assert (items + [it])[..|items|] == items;
  }

  /** The fingerprint a list has for a field. */
  ghost function FpOf(items: seq<Item>, f: Digest): Option<Digest> {
    if items == [] then None
    else
      var last := items[|items| - 1];
      if last.field == f then Some(last.fp) else FpOf(items[..|items| - 1], f)
  }

  lemma {:induction false} FpOfIs(items: seq<Item>, f: Digest)
    requires DistinctFields(items)
    ensures forall k :: 0 <= k < |items| && items[k].field == f ==> FpOf(items, f) == Some(items[k].fp)
    ensures FpOf(items, f) == None <==> forall k :: 0 <= k < |items| ==> items[k].field != f
  {
    if items != [] {
      var n := |items| - 1;
      assert forall k :: 0 <= k < n ==> items[..n][k] == items[k];
      FpOfIs(items[..n], f);
    }
  }

  /** A transition of distinct identities moves each that it reaches, if that can be moved, and no other. */
  lemma {:induction false} MovedAt(
    v: View, items: seq<Item>, reached: Digest -> bool, target: Status, expiry: int, f: Digest)
    requires DistinctFields(items)
    ensures At(TransitionSeq(v, Reached(items, reached), target, expiry).0, f) ==
      match FpOf(items, f)
      case Some(fp) => if reached(f) then Moved(At(v, f), fp, target, expiry) else At(v, f)
      case None => At(v, f)
  {
    if items != [] {
      var n := |items| - 1;
      MovedAt(v, items[..n], reached, target, expiry, f);
      FpOfIs(items[..n], f);
      if reached(items[n].field) {
        TransitionSnoc(v, Reached(items[..n], reached), items[n], target, expiry, f);
      } else {
        assert Reached(items, reached) == Reached(items[..n], reached);
      }
    }
  }

  /** Distinct identities that can all be moved are all counted. */
  lemma {:induction false} TransitionCounts(v: View, items: seq<Item>, target: Status, expiry: int)
    requires DistinctFields(items) && AllMovable(v, items, target)
    ensures TransitionSeq(v, items, target, expiry).1 == |items|
  {
    if items != [] {
      var n := |items| - 1;
      TransitionCounts(v, items[..n], target, expiry);
      ReachedAll(items[..n], _ => true);
      FpOfIs(items[..n], items[n].field);
      MovedAt(v, items[..n], _ => true, target, expiry, items[n].field);
      assert At(TransitionSeq(v, items[..n], target, expiry).0, items[n].field) == At(v, items[n].field);
    }
  }

  function Released(slot: Option<Slot>, fp: Digest): Option<Slot> {
    if slot.Some? && Releasable(slot.value.entry, fp) then None else slot
  }

  lemma {:induction false} ReleaseSnoc(v: View, items: seq<Item>, it: Item, f: Digest)
    ensures
      var before := At(ReleaseSeq(v, items), f);
      At(ReleaseSeq(v, items + [it]), f) == if it.field == f then Released(before, it.fp) else before
  {
    assert (items + [it])[..|items|] == items;
  }

  /** A release of distinct identities drops each that it reaches, if that can be released, and no other. */
  lemma {:induction false} ReleasedAt(v: View, items: seq<Item>, reached: Digest -> bool, f: Digest)
    requires DistinctFields(items)
    ensures At(ReleaseSeq(v, Reached(items, reached)), f) ==
      match FpOf(items, f)
      case Some(fp) => if reached(f) then Released(At(v, f), fp) else At(v, f)
      case None => At(v, f)
  {
    if items != [] {
      var n := |items| - 1;
      ReleasedAt(v, items[..n], reached, f);
      FpOfIs(items[..n], f);
      if reached(items[n].field) {
        ReleaseSnoc(v, Reached(items[..n], reached), items[n], f);
      } else {
        assert Reached(items, reached) == Reached(items[..n], reached);
      }
    }
  }
}

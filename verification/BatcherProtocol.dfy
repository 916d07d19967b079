/**
 The batcher's worker and queue over every schedule: each admitted request is flushed once, in the
 order of admission, unless close leaves it behind, and exactly when that can happen.
 */
module BatcherProtocol {
  import opened Prelude
  import opened CustodyBatcher

  datatype Item = Req(r: Request) | Stop

  /** Where the worker is: not started, waiting for a first request, collecting, flushing, or returned. */
  datatype Phase = NoWorker | Waiting | Collecting(rs: seq<Request>) | Flushing(rs: seq<Request>) | Finished

  datatype Closer = NotClosing | Putting | Joining | Returned

  /** The constructor refuses a batch size below one and a queue smaller than a batch. */
  datatype Config = Config(maxBatch: nat, maxQueue: nat)

  predicate ValidConfig(c: Config) {
    1 <= c.maxBatch <= c.maxQueue
  }

  /** Requests are numbered as they are admitted. */
  datatype State = State(
    queue: seq<Item>, phase: Phase, closed: bool, closer: Closer,
    futures: map<nat, Outcome>, admitted: nat, flushed: seq<nat>)

  const INITIAL := State([], NoWorker, false, NotClosing, map[], 0, [])

  /** Each flush meets whatever the service then answers. */
  datatype Step =
    | Accept(event: Payload, context: Context)
    | Cancel(id: nat)
    | Close
    | PutStop
    | Take
    | TimeOut
    | FlushBatch(service: Service)
    | Join

  const UNAVAILABLE: Service := (_, _) => None

  function Hand(s: State): seq<Request> {
    match s.phase
    case Collecting(rs) => rs
    case Flushing(rs) => rs
    case _ => []
  }

  function Reqs(queue: seq<Item>): seq<Request> {
    if queue == [] then [] else Got(queue[0]) + Reqs(queue[1..])
  }

  function Ids(rs: seq<Request>): (ids: seq<nat>)
    ensures |ids| == |rs| && forall k :: 0 <= k < |rs| ==> ids[k] == rs[k].id
  {
    seq(|rs|, k requires 0 <= k < |rs| => rs[k].id)
  }

  /** The outcome of each request of a batch. */
  function Outcomes(rs: seq<Request>, service: Service): (os: seq<Outcome>)
    ensures |os| == |rs| && forall i :: 0 <= i < |rs| ==> os[i] == OutcomeOf(rs, service, i)
  {
    seq(|rs|, i requires 0 <= i < |rs| => OutcomeOf(rs, service, i))
  }

  /** The futures with the first `n` outcomes set, those done before untouched. */
  function Resolved(ids: seq<nat>, outcomes: seq<Outcome>, n: nat, futures: map<nat, Outcome>): map<nat, Outcome>
    requires n <= |ids| == |outcomes|
  {
    if n == 0 then futures
    else
      var m := Resolved(ids, outcomes, n - 1, futures);
      if ids[n - 1] in m then m else m[ids[n - 1] := outcomes[n - 1]]
  }

  ghost predicate Distinct(ids: seq<nat>) {
    forall i, j :: 0 <= i < j < |ids| ==> ids[i] != ids[j]
  }

  lemma {:induction false} ResolvedIs(ids: seq<nat>, outcomes: seq<Outcome>, n: nat, futures: map<nat, Outcome>)
    requires n <= |ids| == |outcomes| && Distinct(ids)
    ensures var m := Resolved(ids, outcomes, n, futures);
      && (forall id :: id in m <==> id in futures || exists i :: 0 <= i < n && ids[i] == id)
      && (forall id :: id in futures ==> m[id] == futures[id])
      && (forall i :: 0 <= i < n && ids[i] !in futures ==> m[ids[i]] == outcomes[i])
  {
    if n > 0 {
      ResolvedIs(ids, outcomes, n - 1, futures);
    }
  }

  /** What the method Flush leaves is this map. */
  lemma {:induction false} FlushIsResolved(
    rs: seq<Request>, service: Service, futures: map<nat, Outcome>, after: map<nat, Outcome>)
    requires DistinctIds(rs) && Resolves(rs, service, futures, after)
    ensures after == Resolved(Ids(rs), Outcomes(rs, service), |rs|, futures)
  {
    var m := Resolved(Ids(rs), Outcomes(rs, service), |rs|, futures);
    forall id: nat
      ensures FutureAt(m, id) == FutureAt(after, id)
    {
      FlushIsResolvedAt(rs, service, futures, after, id);
    }
    SameFutures(m, after);
  }

  function FutureAt(futures: map<nat, Outcome>, id: nat): Option<Outcome> {
    if id in futures then Some(futures[id]) else None
  }

  lemma {:induction false} SameFutures(m: map<nat, Outcome>, n: map<nat, Outcome>)
    requires forall id: nat :: FutureAt(m, id) == FutureAt(n, id)
    ensures m == n
  {
    forall id: nat
      ensures (id in m <==> id in n) && (id in m ==> m[id] == n[id])
    {
      assert FutureAt(m, id) == FutureAt(n, id);
    }
  }

  lemma {:induction false} FlushIsResolvedAt(
    rs: seq<Request>, service: Service, futures: map<nat, Outcome>, after: map<nat, Outcome>, id: nat)
    requires DistinctIds(rs) && Resolves(rs, service, futures, after)
    ensures FutureAt(Resolved(Ids(rs), Outcomes(rs, service), |rs|, futures), id) == FutureAt(after, id)
  {
    ResolvedOne(rs, service, futures, id);
    ResolvesOne(rs, service, futures, after, id);
  }

  lemma {:induction false} ResolvedOne(rs: seq<Request>, service: Service, futures: map<nat, Outcome>, id: nat)
    requires DistinctIds(rs)
    ensures var m := Resolved(Ids(rs), Outcomes(rs, service), |rs|, futures);
      && (id in m <==> id in futures || exists i :: 0 <= i < |rs| && Ids(rs)[i] == id)
      && (id in futures ==> m[id] == futures[id])
      && (id !in futures ==> forall i :: 0 <= i < |rs| && Ids(rs)[i] == id ==> m[id] == Outcomes(rs, service)[i])
  {
    ResolvedIs(Ids(rs), Outcomes(rs, service), |rs|, futures);
  }

  /** A flushed map, read at one id. */
  lemma {:induction false} ResolvesOne(
    rs: seq<Request>, service: Service, futures: map<nat, Outcome>, after: map<nat, Outcome>, id: nat)
    requires DistinctIds(rs) && Resolves(rs, service, futures, after)
    ensures id in after <==> id in futures || exists i :: 0 <= i < |rs| && Ids(rs)[i] == id
    ensures id in futures ==> after[id] == futures[id]
    ensures id !in futures ==> forall i :: 0 <= i < |rs| && Ids(rs)[i] == id ==> after[id] == Outcomes(rs, service)[i]
  {
    if id in after && id !in futures {
      var i :| 0 <= i < |rs| && rs[i].id == id;
      assert Ids(rs)[i] == id;
    }
  }

  function Next(c: Config, s: State, step: Step): State {
    match step
    case Accept(event, context) =>
      if s.closed || |s.queue| >= c.maxQueue then s
      else
        s.(queue := s.queue + [Req(Request(s.admitted, event, context))], admitted := s.admitted + 1,
           phase := if s.phase == NoWorker then Waiting else s.phase)
    case Cancel(id) => if id < s.admitted && id !in s.futures then s.(futures := s.futures[id := Cancelled]) else s
    case Close =>
      if s.closed then s else s.(closed := true, closer := if s.phase == NoWorker then Returned else Putting)
    case PutStop =>
      if s.closer == Putting && |s.queue| < c.maxQueue then s.(queue := s.queue + [Stop], closer := Joining) else s
    case Take => if s.queue == [] then s else TakeItem(c, s, s.queue[0], s.queue[1..])
    case TimeOut => if s.phase.Collecting? then s.(phase := Flushing(s.phase.rs)) else s
    case FlushBatch(service) =>
      if !s.phase.Flushing? then s
      else
        var rs := s.phase.rs;
        s.(futures := Resolved(Ids(rs), Outcomes(rs, service), |rs|, s.futures), flushed := s.flushed + Ids(rs),
           phase := if s.closed then Finished else Waiting)
    case Join => if s.closer == Joining && s.phase == Finished then s.(closer := Returned) else s
  }

  /** The worker takes the first item of the queue. */
  function TakeItem(c: Config, s: State, item: Item, rest: seq<Item>): State {
    match s.phase
    case Waiting => (match item
                     case Stop => s.(queue := rest, phase := Finished)
                     case Req(r) => s.(queue := rest, phase := Collecting([r])))
    case Collecting(rs) =>
      if |rs| >= c.maxBatch then s
      else (match item
            case Stop => s.(queue := rest, closed := true, phase := Flushing(rs))
            case Req(r) => s.(queue := rest, phase := Collecting(rs + [r])))
    case _ => s
  }

  function Run(c: Config, s: State, steps: seq<Step>): State {
    if steps == [] then s else Next(c, Run(c, s, steps[..|steps| - 1]), steps[|steps| - 1])
  }

  // ---------- every request in one place, in order ----------

  /** Flushed, in the worker's hands, queued: in that order, these are all admitted ids. */
  ghost predicate InOrder(s: State) {
    Numbered(AllIds(s), s.admitted)
  }

  ghost predicate FuturesValid(s: State) {
    && (forall id :: id in s.flushed ==> id in s.futures)
    && (forall id :: id in s.futures ==> id < s.admitted)
  }

  predicate PhaseValid(c: Config, s: State) {
    && |s.queue| <= c.maxQueue && |Hand(s)| <= c.maxBatch
    && (s.phase == NoWorker ==> s.queue == [] && s.admitted == 0 && s.closer != Putting)
    && (s.phase == Finished ==> s.closed)
    && (!s.closed ==> forall k :: 0 <= k < |s.queue| ==> s.queue[k].Req?)
    && (!s.closed ==> s.closer == NotClosing)
  }

  ghost predicate Valid(c: Config, s: State) {
    ValidConfig(c) && InOrder(s) && FuturesValid(s) && PhaseValid(c, s)
  }

  function Got(item: Item): seq<Request> {
    if item.Req? then [item.r] else []
  }

  lemma {:induction false} ReqsSnoc(queue: seq<Item>, item: Item)
    ensures Reqs(queue + [item]) == Reqs(queue) + Got(item)
  {
    if queue == [] {
      assert [item][1..] == [] && [] + [item] == [item];
      assert Got(item) + [] == Got(item) && [] + Got(item) == Got(item);
    } else {
      assert (queue + [item])[1..] == queue[1..] + [item];
      ReqsSnoc(queue[1..], item);
      assert Got(queue[0]) + (Reqs(queue[1..]) + Got(item)) == Got(queue[0]) + Reqs(queue[1..]) + Got(item);
    }
  }

  lemma {:induction false} NumbersAreDistinct(before: seq<nat>, rs: seq<Request>, after: seq<nat>)
    requires forall k :: 0 <= k < |before + Ids(rs) + after| ==> (before + Ids(rs) + after)[k] == k
    ensures Distinct(Ids(rs))
  {
    var all := before + Ids(rs) + after;
    assert forall k :: 0 <= k < |rs| ==> all[|before| + k] == rs[k].id;
  }

  ghost predicate Numbered(ids: seq<nat>, n: nat) {
    |ids| == n && forall k :: 0 <= k < n ==> ids[k] == k
  }

  function AllIds(s: State): seq<nat> {
    s.flushed + Ids(Hand(s)) + Ids(Reqs(s.queue))
  }

  lemma {:induction false} AcceptKeepsOrder(c: Config, s: State, event: Payload, context: Context)
    ensures var t := Next(c, s, Accept(event, context));
      AllIds(t) == AllIds(s) + if t.admitted == s.admitted then [] else [s.admitted]
  {
    var r := Request(s.admitted, event, context);
    ReqsSnoc(s.queue, Req(r));
    assert AllIds(s) + [] == AllIds(s);
  }

  lemma {:induction false} RequestMoves(flushed: seq<nat>, hand: seq<Request>, got: seq<Request>, rest: seq<Request>)
    ensures flushed + Ids(hand + got) + Ids(rest) == flushed + Ids(hand) + Ids(got + rest)
  {
  }

  lemma {:induction false} TakeKeepsOrder(c: Config, s: State)
    ensures AllIds(Next(c, s, Take)) == AllIds(s)
  {
    var t := Next(c, s, Take);
    if s.queue != [] && t != s {
      var got := if s.queue[0].Req? then [s.queue[0].r] else [];
      assert Reqs(s.queue) == got + Reqs(t.queue) && Hand(t) == Hand(s) + got;
      RequestMoves(s.flushed, Hand(s), got, Reqs(t.queue));
    }
  }

  lemma {:induction false} FlushKeepsOrder(c: Config, s: State, service: Service)
    ensures AllIds(Next(c, s, FlushBatch(service))) == AllIds(s)
  {
    assert s.flushed + Ids(Hand(s)) + [] == s.flushed + Ids(Hand(s));
  }

  lemma {:induction false} PutStopKeepsOrder(c: Config, s: State)
    ensures AllIds(Next(c, s, PutStop)) == AllIds(s)
  {
    ReqsSnoc(s.queue, Stop);
    assert Reqs(s.queue) + [] == Reqs(s.queue);
  }

  /** What a step adds to the numbers: the next one, when it admits a request. */
  lemma {:induction false} IdsStep(c: Config, s: State, step: Step)
    ensures var t := Next(c, s, step);
      AllIds(t) == AllIds(s) + if t.admitted == s.admitted then [] else [s.admitted]
    ensures s.admitted <= Next(c, s, step).admitted <= s.admitted + 1
  {
    match step
    case Accept(event, context) => AcceptKeepsOrder(c, s, event, context);
    case Take => TakeKeepsOrder(c, s);
    case FlushBatch(service) => FlushKeepsOrder(c, s, service);
    case PutStop => PutStopKeepsOrder(c, s);
    case _ =>
  }

  /** No step loses, doubles or reorders a request. */
  lemma {:induction false} OrderStep(c: Config, s: State, step: Step)
    ensures var t := Next(c, s, step);
      AllIds(t) == AllIds(s) + if t.admitted == s.admitted then [] else [s.admitted]
    ensures InOrder(s) ==> InOrder(Next(c, s, step))
  {
    IdsStep(c, s, step);
  }

  /** Resolving numbered requests: nothing done before changes, and only admitted ids appear. */
  lemma {:induction false} ResolvedKeeps(ids: seq<nat>, outcomes: seq<Outcome>, futures: map<nat, Outcome>, n: nat)
    requires |ids| == |outcomes| && Distinct(ids)
    requires (forall k :: 0 <= k < |ids| ==> ids[k] < n) && (forall id :: id in futures ==> id < n)
    ensures var m := Resolved(ids, outcomes, |ids|, futures);
      && (forall id :: id in futures ==> id in m && m[id] == futures[id])
      && (forall id :: id in m ==> id < n)
      && (forall id :: id in ids ==> id in m)
  {
    ResolvedIs(ids, outcomes, |ids|, futures);
  }

  lemma {:induction false} HandIsAdmitted(s: State)
    requires InOrder(s)
    ensures Distinct(Ids(Hand(s))) && forall k :: 0 <= k < |Hand(s)| ==> Ids(Hand(s))[k] < s.admitted
  {
    NumbersAreDistinct(s.flushed, Hand(s), Ids(Reqs(s.queue)));
    assert forall k :: 0 <= k < |Hand(s)| ==> AllIds(s)[|s.flushed| + k] == Ids(Hand(s))[k];
  }

  lemma {:induction false} FuturesStep(c: Config, s: State, step: Step)
    requires Valid(c, s)
    ensures FuturesValid(Next(c, s, step))
    ensures var t := Next(c, s, step);
      forall id :: id in s.futures ==> id in t.futures && t.futures[id] == s.futures[id]
  {
    match step
    case FlushBatch(service) =>
      if s.phase.Flushing? {
        FlushSets(c, s, service);
        HandIsAdmitted(s);
        ResolvedKeeps(Ids(s.phase.rs), Outcomes(s.phase.rs, service), s.futures, s.admitted);
      }
    case Take =>
      assert Next(c, s, step).futures == s.futures && Next(c, s, step).admitted == s.admitted;
    case _ =>
  }

  lemma {:induction false} PhaseStep(c: Config, s: State, step: Step)
    requires ValidConfig(c) && PhaseValid(c, s)
    ensures PhaseValid(c, Next(c, s, step))
  {
  }

  lemma {:induction false} ValidStep(c: Config, s: State, step: Step)
    requires Valid(c, s)
    ensures Valid(c, Next(c, s, step))
  {
    OrderStep(c, s, step);
    FuturesStep(c, s, step);
    PhaseStep(c, s, step);
  }

  /**
   Over every schedule: each admitted request is in exactly one place, flushed before those admitted
   after it; no batch is over its size and no queue over its limit; what is flushed is resolved.
   */
  lemma {:induction false} RunsAreValid(c: Config, steps: seq<Step>)
    requires ValidConfig(c)
    ensures Valid(c, Run(c, INITIAL, steps))
  {
    if steps != [] {
      RunsAreValid(c, steps[..|steps| - 1]);
      ValidStep(c, Run(c, INITIAL, steps[..|steps| - 1]), steps[|steps| - 1]);
    }
  }

  /** A future, once done, never changes. */
  lemma {:induction false} ResolvedOnce(c: Config, s: State, steps: seq<Step>, id: nat)
    requires Valid(c, s) && id in s.futures
    ensures Valid(c, Run(c, s, steps))
    ensures id in Run(c, s, steps).futures && Run(c, s, steps).futures[id] == s.futures[id]
  {
    if steps != [] {
      ResolvedOnce(c, s, steps[..|steps| - 1], id);
      ValidStep(c, Run(c, s, steps[..|steps| - 1]), steps[|steps| - 1]);
      FuturesStep(c, Run(c, s, steps[..|steps| - 1]), steps[|steps| - 1]);
    }
  }

  /** A future that is cancelled while it is open stays cancelled, whatever the service answers later. */
  lemma {:induction false} CancelledStays(c: Config, s: State, id: nat, steps: seq<Step>)
    requires Valid(c, s) && id < s.admitted && id !in s.futures
    ensures
      var t := Run(c, Next(c, s, Cancel(id)), steps);
      id in t.futures && t.futures[id] == Cancelled
  {
    ValidStep(c, s, Cancel(id));
    ResolvedOnce(c, Next(c, s, Cancel(id)), steps, id);
  }

  /** `n` requests accepted and taken in turn. */
  function Arrivals(event: Payload, context: Context, n: nat): seq<Step> {
    if n == 0 then [] else Arrivals(event, context, n - 1) + [Accept(event, context), Take]
  }

  /** One more request, when the worker has emptied the queue and its batch has room. */
  lemma {:induction false} OneArrives(c: Config, s: State, event: Payload, context: Context)
    requires ValidConfig(c) && s.queue == [] && !s.closed && |Hand(s)| < c.maxBatch
    requires s == INITIAL || s.phase.Collecting?
    ensures
      var t := Next(c, Next(c, s, Accept(event, context)), Take);
      t.queue == [] && !t.closed && t.phase == Collecting(Hand(s) + [Request(s.admitted, event, context)])
  {
    var r := Request(s.admitted, event, context);
    var t := Next(c, s, Accept(event, context));
    assert t.queue == [Req(r)] && t.queue[1..] == [];
    assert [] + [r] == [r];
  }

  lemma {:induction false} RunOneMore(c: Config, steps: seq<Step>, event: Payload, context: Context)
    requires
      var s := Run(c, INITIAL, steps);
      && ValidConfig(c) && s.queue == [] && !s.closed && |Hand(s)| < c.maxBatch
      && (s == INITIAL || s.phase.Collecting?)
    ensures
      var s, t := Run(c, INITIAL, steps), Run(c, INITIAL, steps + [Accept(event, context), Take]);
      t.queue == [] && !t.closed && t.phase.Collecting? && |t.phase.rs| == |Hand(s)| + 1
  {
    var all := steps + [Accept(event, context), Take];
    assert all[..|all| - 1] == steps + [Accept(event, context)];
    assert (steps + [Accept(event, context)])[..|steps|] == steps;
    OneArrives(c, Run(c, INITIAL, steps), event, context);
  }

  /** A batch grows up to the limit: with enough requests at hand it is filled. */
  lemma {:induction false} ABatchGetsFull(c: Config, event: Payload, context: Context, n: nat)
    requires ValidConfig(c) && n <= c.maxBatch
    ensures
      var s := Run(c, INITIAL, Arrivals(event, context, n));
      s.queue == [] && !s.closed && if n == 0 then s == INITIAL else s.phase.Collecting? && |s.phase.rs| == n
  {
    if n > 0 {
      var before := Arrivals(event, context, n - 1);
      ABatchGetsFull(c, event, context, n - 1);
      RunOneMore(c, before, event, context);
    }
  }

  /** A flush gives every request of its batch that was not cancelled the outcome of its own event. */
  lemma {:induction false} FlushAnswersItsOwn(c: Config, s: State, service: Service, i: nat)
    requires Valid(c, s) && s.phase.Flushing? && i < |s.phase.rs|
    ensures var rs, t := s.phase.rs, Next(c, s, FlushBatch(service));
      && rs[i].id in t.futures
      && t.futures[rs[i].id] == (if rs[i].id in s.futures then s.futures[rs[i].id] else OutcomeOf(rs, service, i))
  {
    FlushSets(c, s, service);
    HandIsAdmitted(s);
    ResolvedAt(Ids(s.phase.rs), Outcomes(s.phase.rs, service), s.futures, i);
  }

  lemma {:induction false} FlushSets(c: Config, s: State, service: Service)
    requires s.phase.Flushing?
    ensures var rs := s.phase.rs;
      Next(c, s, FlushBatch(service)).futures == Resolved(Ids(rs), Outcomes(rs, service), |rs|, s.futures)
  {
  }

  lemma {:induction false} ResolvedAt(ids: seq<nat>, outcomes: seq<Outcome>, futures: map<nat, Outcome>, i: nat)
    requires |ids| == |outcomes| && Distinct(ids) && i < |ids|
    ensures var m := Resolved(ids, outcomes, |ids|, futures);
      ids[i] in m && m[ids[i]] == if ids[i] in futures then futures[ids[i]] else outcomes[i]
  {
    ResolvedIs(ids, outcomes, |ids|, futures);
  }

  // ---------- every future is its own request's ----------

  /** The step admitted the request, under its number. */
  ghost predicate Admits(c: Config, steps: seq<Step>, m: nat, r: Request)
    requires m < |steps|
  {
    && steps[m].Accept? && steps[m].event == r.event && steps[m].context == r.context
    && Run(c, INITIAL, steps[..m]).admitted == r.id
    && Next(c, Run(c, INITIAL, steps[..m]), steps[m]).admitted == r.id + 1
  }

  ghost predicate Admitted(c: Config, steps: seq<Step>, r: Request) {
    exists m: nat :: m < |steps| && Admits(c, steps, m, r)
  }

  /** The step flushed a batch in which the request stands at `i`, with this outcome. */
  ghost predicate Flushes(c: Config, steps: seq<Step>, n: nat, i: nat, r: Request, o: Outcome)
    requires n < |steps|
  {
    var s := Run(c, INITIAL, steps[..n]);
    && steps[n].FlushBatch? && s.phase.Flushing? && i < |s.phase.rs| && s.phase.rs[i] == r
    && o == OutcomeOf(s.phase.rs, steps[n].service, i)
  }

  ghost predicate Cancels(steps: seq<Step>, id: nat) {
    exists n: nat :: n < |steps| && steps[n].Cancel? && steps[n].id == id
  }

  /** The outcome is that of the admitted event with the number, from the batch it was flushed in. */
  ghost predicate Answers(c: Config, steps: seq<Step>, id: nat, o: Outcome) {
    exists n: nat, i: nat, r: Request ::
      n < |steps| && Flushes(c, steps, n, i, r, o) && r.id == id && Admitted(c, steps, r)
  }

  lemma {:induction false} AdmittedStays(c: Config, steps: seq<Step>, last: Step, r: Request)
    requires Admitted(c, steps, r)
    ensures Admitted(c, steps + [last], r)
  {
    var m: nat :| m < |steps| && Admits(c, steps, m, r);
    assert (steps + [last])[..m] == steps[..m] && (steps + [last])[m] == steps[m];
    assert Admits(c, steps + [last], m, r);
  }

  lemma {:induction false} AnswersStay(c: Config, steps: seq<Step>, last: Step, id: nat, o: Outcome)
    requires Answers(c, steps, id, o)
    ensures Answers(c, steps + [last], id, o)
  {
    var n: nat, i: nat, r: Request :|
      n < |steps| && Flushes(c, steps, n, i, r, o) && r.id == id && Admitted(c, steps, r);
    AdmittedStays(c, steps, last, r);
    assert (steps + [last])[..n] == steps[..n] && (steps + [last])[n] == steps[n];
    assert Flushes(c, steps + [last], n, i, r, o);
  }

  /** What is in hand and what is queued. */
  function Held(s: State): seq<Request> {
    Hand(s) + Reqs(s.queue)
  }

  /** A step holds on to requests only as they are, or admits one. */
  lemma {:induction false} HeldAfter(c: Config, s: State, step: Step, r: Request)
    requires r in Held(Next(c, s, step))
    ensures r in Held(s) || (
      && step.Accept? && step.event == r.event && step.context == r.context
      && s.admitted == r.id && Next(c, s, step).admitted == r.id + 1)
  {
    match step
    case Accept(event, context) => ReqsSnoc(s.queue, Req(Request(s.admitted, event, context)));
    case PutStop => ReqsSnoc(s.queue, Stop);
    case Take => HeldAfterTake(c, s, r);
    case _ =>
  }

  lemma {:induction false} HeldAfterTake(c: Config, s: State, r: Request)
    requires r in Held(Next(c, s, Take))
    ensures r in Held(s)
  {
    if s.queue != [] {
      assert Reqs(s.queue) == Got(s.queue[0]) + Reqs(s.queue[1..]);
    }
  }

  lemma {:induction false} RunSnoc(c: Config, s: State, steps: seq<Step>, last: Step)
    ensures Run(c, s, steps + [last]) == Next(c, Run(c, s, steps), last)
  {
    assert (steps + [last])[..|steps|] == steps;
  }

  lemma {:induction false} HeldIsAdmitted(c: Config, steps: seq<Step>, r: Request)
    requires r in Held(Run(c, INITIAL, steps))
    ensures Admitted(c, steps, r)
  {
    if steps != [] {
      var front, last := steps[..|steps| - 1], steps[|steps| - 1];
      var before := Run(c, INITIAL, front);
      assert steps == front + [last];
      RunSnoc(c, INITIAL, front, last);
      HeldAfter(c, before, last, r);
      if r in Held(before) {
        HeldIsAdmitted(c, front, r);
        AdmittedStays(c, front, last, r);
      } else {
        assert Admits(c, steps, |front|, r);
      }
    }
  }

  /** A step that sets a future cancels it, or flushes its request. */
  lemma {:induction false} FutureIsSet(c: Config, s: State, step: Step, id: nat) returns (i: nat)
    requires Valid(c, s) && id !in s.futures && id in Next(c, s, step).futures
    ensures
      var o := Next(c, s, step).futures[id];
      || (step == Cancel(id) && o == Cancelled)
      || (step.FlushBatch? && s.phase.Flushing? && i < |s.phase.rs| && s.phase.rs[i].id == id
          && o == OutcomeOf(s.phase.rs, step.service, i))
  {
    i := 0;
    match step
    case FlushBatch(service) =>
      var rs := s.phase.rs;
      FlushSets(c, s, service);
      HandIsAdmitted(s);
      ResolvedIs(Ids(rs), Outcomes(rs, service), |rs|, s.futures);
      i :| 0 <= i < |rs| && Ids(rs)[i] == id;
      FlushAnswersItsOwn(c, s, service, i);
    case _ =>
  }

  /**
   Over every schedule and whatever the service answers each time: a future that is done was cancelled, or
   has the outcome of the very event admitted under its number, from the one batch it was flushed in.
   */
  lemma {:induction false} EveryFutureIsItsOwn(c: Config, steps: seq<Step>, id: nat)
    requires ValidConfig(c) && id in Run(c, INITIAL, steps).futures
    ensures
      var o := Run(c, INITIAL, steps).futures[id];
      (o == Cancelled && Cancels(steps, id)) || Answers(c, steps, id, o)
  {
    if steps != [] {
      var front, last := steps[..|steps| - 1], steps[|steps| - 1];
      var before := Run(c, INITIAL, front);
      assert steps == front + [last];
      RunsAreValid(c, front);
      if id in before.futures {
        EveryFutureIsItsOwn(c, front, id);
        FuturesStep(c, before, last);
        EarlierStays(c, front, last, id, before.futures[id]);
      } else {
        NewFutureIsItsOwn(c, front, last, id);
      }
    }
  }

  lemma {:induction false} EarlierStays(c: Config, front: seq<Step>, last: Step, id: nat, o: Outcome)
    requires (o == Cancelled && Cancels(front, id)) || Answers(c, front, id, o)
    ensures (o == Cancelled && Cancels(front + [last], id)) || Answers(c, front + [last], id, o)
  {
    if Answers(c, front, id, o) {
      AnswersStay(c, front, last, id, o);
    } else {
      var n: nat :| n < |front| && front[n].Cancel? && front[n].id == id;
      assert (front + [last])[n] == front[n];
    }
  }

  lemma {:induction false} NewFutureIsItsOwn(c: Config, front: seq<Step>, last: Step, id: nat)
    requires ValidConfig(c) && Valid(c, Run(c, INITIAL, front)) && id !in Run(c, INITIAL, front).futures
    requires id in Next(c, Run(c, INITIAL, front), last).futures
    ensures
      var o := Next(c, Run(c, INITIAL, front), last).futures[id];
      (o == Cancelled && Cancels(front + [last], id)) || Answers(c, front + [last], id, o)
  {
    var before, steps := Run(c, INITIAL, front), front + [last];
    var i := FutureIsSet(c, before, last, id);
    assert steps[|front|] == last && steps[..|front|] == front;
    if last.FlushBatch? {
      var r := before.phase.rs[i];
      assert r in Hand(before);
      HeldIsAdmitted(c, front, r);
      AdmittedStays(c, front, last, r);
      assert Flushes(c, steps, |front|, i, r, OutcomeOf(before.phase.rs, last.service, i));
    }
  }

  // ---------- close ----------

  /** Whatever happens after close, once the worker returned everything admitted was flushed. */
  ghost predicate DrainsAlways(c: Config, s: State) {
    forall steps: seq<Step> :: var t := Run(c, Next(c, s, Close), steps);
      t.phase == Finished ==> |t.flushed| == s.admitted
  }

  /** Nothing waits behind the batch in hand, or at most one request before an idle worker. */
  predicate LittleQueued(s: State) {
    if s.phase == Waiting then |s.queue| <= 1 else s.queue == []
  }

  /** What close leaves to do when little was queued. */
  ghost predicate Draining(c: Config, s: State, n: nat) {
    && Valid(c, s) && s.closed && s.admitted == n
    && match s.phase
       case NoWorker => false
       case Waiting =>
         || s.queue == []
         || (s.queue[0] == Stop && Reqs(s.queue) == [])
         || (s.queue[0].Req? && Reqs(s.queue[1..]) == [])
       case _ => Reqs(s.queue) == []
  }

  lemma {:induction false} PutStopDrains(c: Config, s: State, n: nat)
    requires Draining(c, s, n) && Valid(c, Next(c, s, PutStop))
    ensures Draining(c, Next(c, s, PutStop), n)
  {
    StopBehind(s.queue);
  }

  lemma {:induction false} FlushDrains(c: Config, s: State, service: Service, n: nat)
    requires Draining(c, s, n) && Valid(c, Next(c, s, FlushBatch(service)))
    ensures Draining(c, Next(c, s, FlushBatch(service)), n)
  {
  }

  lemma {:induction false} DrainingStep(c: Config, s: State, step: Step, n: nat)
    requires Draining(c, s, n)
    ensures Draining(c, Next(c, s, step), n)
  {
    ValidStep(c, s, step);
    match step
    case PutStop => PutStopDrains(c, s, n);
    case Take => TakeDrains(c, s, n);
    case FlushBatch(service) => FlushDrains(c, s, service, n);
    case _ =>
  }

  lemma {:induction false} StopBehind(queue: seq<Item>)
    ensures Reqs(queue + [Stop]) == Reqs(queue)
    ensures queue != [] ==> (queue + [Stop])[0] == queue[0] && Reqs((queue + [Stop])[1..]) == Reqs(queue[1..])
  {
    ReqsSnoc(queue, Stop);
    if queue != [] {
      ReqsSnoc(queue[1..], Stop);
      assert (queue + [Stop])[1..] == queue[1..] + [Stop];
    }
  }

  lemma {:induction false} TakeDrains(c: Config, s: State, n: nat)
    requires Draining(c, s, n) && Valid(c, Next(c, s, Take))
    ensures Draining(c, Next(c, s, Take), n)
  {
    if s.queue != [] {
      assert Reqs(s.queue) == (if s.queue[0].Req? then [s.queue[0].r] else []) + Reqs(s.queue[1..]);
    }
  }

  lemma {:induction false} DrainingRun(c: Config, s: State, steps: seq<Step>, n: nat)
    requires Draining(c, s, n)
    ensures Draining(c, Run(c, s, steps), n)
  {
    if steps != [] {
      DrainingRun(c, s, steps[..|steps| - 1], n);
      DrainingStep(c, Run(c, s, steps[..|steps| - 1]), steps[|steps| - 1], n);
    }
  }

  /** The worker returns right after a flush once closed: what is still queued then stays. */
  lemma {:induction false} HastyRun(c: Config, s: State) returns (steps: seq<Step>)
    requires Valid(c, s) && !s.closed && s.phase != NoWorker && !LittleQueued(s)
    ensures var t := Run(c, Next(c, s, Close), steps);
      t.phase == Finished && Reqs(t.queue) != [] && t.admitted == s.admitted
  {
    var start := Next(c, s, Close);
    var flush := FlushBatch(UNAVAILABLE);
    var one, two, three := [flush], [TimeOut, flush], [Take, TimeOut, flush];
    assert one[..0] == [] && two[..1] == [TimeOut] && two[..1][..0] == [];
    assert three[..2] == [Take, TimeOut] && three[..2][..1] == [Take] && [Take][..0] == [];
    assert Run(c, start, []) == start;
    match s.phase
    case Flushing(_) => steps := one;
    case Collecting(_) =>
      assert Run(c, start, [TimeOut]) == Next(c, start, TimeOut);
      steps := two;
    case Waiting =>
      assert Run(c, start, [Take]) == Next(c, start, Take);
      assert Run(c, start, [Take, TimeOut]) == Next(c, Next(c, start, Take), TimeOut);
      steps := three;
  }

  /**
   close drains what was admitted before it, under every schedule, exactly when nothing is queued
   behind a batch in hand, or at most one request is queued before an idle worker.
   */
  lemma {:induction false} CloseDrainsExactlyWhenLittleIsQueued(c: Config, s: State)
    requires Valid(c, s) && !s.closed && s.phase != NoWorker
    ensures DrainsAlways(c, s) <==> LittleQueued(s)
  {
    var start := Next(c, s, Close);
    ValidStep(c, s, Close);
    if LittleQueued(s) {
      assert Draining(c, start, s.admitted);
      forall steps: seq<Step>
        ensures var t := Run(c, start, steps); t.phase == Finished ==> |t.flushed| == s.admitted
      {
        DrainingRun(c, start, steps, s.admitted);
      }
    } else {
      var steps := HastyRun(c, s);
      var t := Run(c, start, steps);
      StaysValid(c, start, steps);
      assert t.phase == Finished && |t.flushed| != s.admitted;
    }
  }

  lemma {:induction false} StaysValid(c: Config, s: State, steps: seq<Step>)
    requires Valid(c, s)
    ensures Valid(c, Run(c, s, steps))
  {
    if steps != [] {
      StaysValid(c, s, steps[..|steps| - 1]);
      ValidStep(c, Run(c, s, steps[..|steps| - 1]), steps[|steps| - 1]);
    }
  }

  /** Once closed, nothing more is admitted. */
  lemma {:induction false} ClosedAdmitsNothing(c: Config, s: State, steps: seq<Step>)
    requires s.closed
    ensures Run(c, s, steps).closed && Run(c, s, steps).admitted == s.admitted
  {
    if steps != [] {
      ClosedAdmitsNothing(c, s, steps[..|steps| - 1]);
    }
  }

  // ---------- does close return? ----------

  ghost predicate NeverReturns(c: Config, s: State) {
    forall steps: seq<Step> :: Run(c, s, steps).closer != Returned
  }

  /** Under some schedule close comes to a point from which no schedule lets it return. */
  ghost predicate MayHang(c: Config, s: State) {
    exists steps: seq<Step> :: NeverReturns(c, Run(c, Next(c, s, Close), steps))
  }

  /** The worker has returned, and close still waits for a place in a full queue. */
  predicate Stuck(c: Config, s: State) {
    s.closed && s.phase == Finished && s.closer == Putting && |s.queue| == c.maxQueue
  }

  lemma {:induction false} StuckForever(c: Config, s: State, steps: seq<Step>)
    requires Stuck(c, s)
    ensures Stuck(c, Run(c, s, steps))
  {
    if steps != [] {
      StuckForever(c, s, steps[..|steps| - 1]);
    }
  }

  /** The worker has a batch in hand, so it will not take again if it returns with it. */
  predicate HasBatch(s: State) {
    s.phase.Flushing? || s.phase.Collecting?
  }

  lemma {:induction false} HangingRun(c: Config, s: State) returns (steps: seq<Step>)
    requires !s.closed && HasBatch(s) && |s.queue| == c.maxQueue
    ensures Stuck(c, Run(c, Next(c, s, Close), steps))
  {
    var start := Next(c, s, Close);
    var one, two := [FlushBatch(UNAVAILABLE)], [TimeOut, FlushBatch(UNAVAILABLE)];
    assert one[..0] == [] && two[..1] == [TimeOut] && two[..1][..0] == [];
    assert Run(c, start, []) == start;
    steps := if s.phase.Flushing? then one else two;
    assert Run(c, start, [TimeOut]) == Next(c, start, TimeOut);
  }

  /** Close has a place for its stop, or the worker is about to make one; and the stop ends the worker. */
  predicate Roomy(c: Config, s: State) {
    && ValidConfig(c) && s.closed && |s.queue| <= c.maxQueue
    && s.closer != NotClosing && (s.phase == NoWorker ==> s.closer == Returned)
    && (s.closer == Putting && |s.queue| == c.maxQueue ==> s.phase == Waiting)
    && (s.closer == Joining && s.phase == Waiting ==> s.queue != [])
  }

  lemma {:induction false} RoomyStep(c: Config, s: State, step: Step)
    requires Roomy(c, s)
    ensures Roomy(c, Next(c, s, step))
  {
  }

  lemma {:induction false} RoomyRun(c: Config, s: State, steps: seq<Step>)
    requires Roomy(c, s)
    ensures Roomy(c, Run(c, s, steps))
  {
    if steps != [] {
      RoomyRun(c, s, steps[..|steps| - 1]);
      RoomyStep(c, Run(c, s, steps[..|steps| - 1]), steps[|steps| - 1]);
    }
  }

  /** A step that brings close nearer to its return, and how far it still is. */
  function Onward(c: Config, s: State): Step {
    if s.closer == Putting then (if |s.queue| == c.maxQueue then Take else PutStop)
    else
      match s.phase
      case Waiting => Take
      case Collecting(_) => TimeOut
      case Flushing(_) => FlushBatch(UNAVAILABLE)
      case _ => Join
  }

  function Distance(c: Config, s: State): nat {
    match s.closer
    case Putting => if |s.queue| == c.maxQueue then 6 else 5
    case Joining =>
      if s.phase == Waiting then 4 else if s.phase.Collecting? then 3 else if s.phase.Flushing? then 2 else 1
    case _ => 0
  }

  lemma {:induction false} OnwardIsNearer(c: Config, s: State)
    requires Roomy(c, s) && s.closer != Returned
    ensures Distance(c, Next(c, s, Onward(c, s))) < Distance(c, s)
  {
  }

  lemma {:induction false} RunAfter(c: Config, s: State, step: Step, steps: seq<Step>)
    ensures Run(c, s, [step] + steps) == Run(c, Next(c, s, step), steps)
  {
    if steps == [] {
      RunSnoc(c, s, [], step);
      assert [] + [step] == [step] + steps;
    } else {
      var front, last := steps[..|steps| - 1], steps[|steps| - 1];
      RunAfter(c, s, step, front);
      RunSnoc(c, s, [step] + front, last);
      assert [step] + front + [last] == [step] + steps;
    }
  }

  lemma {:induction false} ReturningRun(c: Config, s: State) returns (steps: seq<Step>)
    requires Roomy(c, s)
    ensures Run(c, s, steps).closer == Returned
    decreases Distance(c, s)
  {
    if s.closer == Returned {
      steps := [];
    } else {
      var step := Onward(c, s);
      RoomyStep(c, s, step);
      OnwardIsNearer(c, s);
      var rest := ReturningRun(c, Next(c, s, step));
      RunAfter(c, s, step, rest);
      steps := [step] + rest;
    }
  }

  /**
   close can hang exactly when it is called on a full queue while the worker has a batch in hand: the
   worker may return with that batch, and nobody takes from the queue again. Otherwise, whatever has
   happened since, some schedule lets it return.
   */
  lemma {:induction false} CloseMayHangExactlyWhen(c: Config, s: State)
    requires Valid(c, s) && !s.closed
    ensures MayHang(c, s) <==> |s.queue| == c.maxQueue && HasBatch(s)
  {
    var start := Next(c, s, Close);
    if |s.queue| == c.maxQueue && HasBatch(s) {
      var steps := HangingRun(c, s);
      var t := Run(c, start, steps);
      forall more: seq<Step>
        ensures Run(c, t, more).closer != Returned
      {
        StuckForever(c, t, more);
      }
      assert NeverReturns(c, t);
    } else {
      forall steps: seq<Step>
        ensures !NeverReturns(c, Run(c, start, steps))
      {
        RoomyRun(c, start, steps);
        var more := ReturningRun(c, Run(c, start, steps));
      }
    }
  }
}

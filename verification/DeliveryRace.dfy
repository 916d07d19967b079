/**
 KafkaProducerDispatcher.publish_and_wait (api/ingestion.py): a request thread that waits for its
 delivery event races with the delivery callback on the polling thread. Each step below is one
 access to what the two threads share; any number of publications interleave.
 */
module DeliveryRace {
  import opened Prelude

  datatype Broker = Silent | Acked | Refused

  datatype Outcome = Delivered | Unavailable | Uncertain | Overloaded

  datatype Waiter =
    | Acquiring                 // about to take a slot
    | Producing                 // about to call produce
    | Waiting                   // in delivered.wait(timeout)
    | Expired                   // the wait returned False; about to set timed_out
    | Rechecking                // about to test delivered once more
    | Locking(succeeded: bool)  // in dispatch_late, about to test and set the dispatched flag
    | Submitting(succeeded: bool)
    | Returned(outcome: Outcome)

  datatype Callback =
    | Unarmed       // produce has not been called
    | Armed         // the broker may report at any time
    | Recording     // about to append a delivery error, if there is one
    | Signalling    // about to set delivered
    | Releasing     // about to release the slot
    | Testing       // about to test timed_out
    | CbLocking
    | CbSubmitting
    | Finished

  /** One publication: the two program counters, what they share, and what they have done. */
  datatype Publication = Publication(
    reconciles: bool,           // was an on_late_delivery callback given?
    waiter: Waiter,
    callback: Callback,
    broker: Broker,             // the broker's report, once there is one
    delivered: bool,
    failed: bool,               // delivery_error is not empty
    timedOut: bool,
    dispatched: bool,           // the flag under reconciliation_lock
    submitted: seq<bool>,       // late reconciliations handed to the executor
    acquired: nat,
    released: nat)

  datatype World = World(limit: nat, inUse: int, publications: map<nat, Publication>)

  datatype Step =
    | Begin(id: nat, reconciles: bool)
    | Acquire(id: nat)
    | Produce(id: nat, raised: Option<Outcome>)
    | Report(id: nat, ok: bool)
    | WaiterMoves(id: nat, signalled: bool)
    | CallbackMoves(id: nat)

  function Fresh(reconciles: bool): Publication {
    Publication(reconciles, Acquiring, Unarmed, Silent, false, false, false, false, [], 0, 0)
  }

  /** The publication after a step of one of its threads; `full` says whether a slot can be taken. */
  function Act(p: Publication, full: bool, s: Step): Option<Publication> {
    match s
    case Begin(_, _) => None
    case Acquire(_) =>
      if p.waiter != Acquiring then None
      else if full then Some(p.(waiter := Returned(Overloaded)))
      else Some(p.(waiter := Producing, acquired := p.acquired + 1))
    case Produce(_, raised) =>
      if p.waiter != Producing then None
      else if raised == None then Some(p.(waiter := Waiting, callback := Armed))
      else if raised.value == Overloaded || raised.value == Unavailable then
        Some(p.(waiter := Returned(raised.value), released := p.released + 1))
      else None
    case Report(_, ok) =>
      if p.callback != Armed then None else Some(p.(callback := Recording, broker := if ok then Acked else Refused))
    case WaiterMoves(_, signalled) => WaiterAct(p, signalled)
    case CallbackMoves(_) => CallbackAct(p)
  }

  function WaiterAct(p: Publication, signalled: bool): Option<Publication> {
    match p.waiter
    case Waiting =>
      if signalled != p.delivered then None
      else if signalled then Some(p.(waiter := Returned(if p.failed then Unavailable else Delivered)))
      else Some(p.(waiter := Expired))
    case Expired => Some(p.(waiter := Rechecking, timedOut := true))
    case Rechecking =>
      Some(p.(waiter := if p.delivered && p.reconciles then Locking(!p.failed) else Returned(Uncertain)))
    case Locking(succeeded) =>
      if p.dispatched then Some(p.(waiter := Returned(Uncertain)))
      else Some(p.(waiter := Submitting(succeeded), dispatched := true))
    case Submitting(succeeded) =>
      Some(p.(waiter := Returned(Uncertain), submitted := p.submitted + [succeeded]))
    case _ => None
  }

  function CallbackAct(p: Publication): Option<Publication> {
    match p.callback
    case Recording => Some(p.(callback := Signalling, failed := p.failed || p.broker == Refused))
    case Signalling => Some(p.(callback := Releasing, delivered := true))
    case Releasing => Some(p.(callback := Testing, released := p.released + 1))
    case Testing => Some(p.(callback := if p.timedOut && p.reconciles then CbLocking else Finished))
    case CbLocking =>
      if p.dispatched then Some(p.(callback := Finished))
      else Some(p.(callback := CbSubmitting, dispatched := true))
    case CbSubmitting => Some(p.(callback := Finished, submitted := p.submitted + [p.broker == Acked]))
    case _ => None
  }

  function Next(w: World, s: Step): Option<World> {
    match s
    case Begin(id, reconciles) =>
      if id in w.publications then None
      else Some(w.(publications := w.publications[id := Fresh(reconciles)]))
    case _ =>
      if s.id !in w.publications then None else
      var p := w.publications[s.id];
      var act := Act(p, w.inUse >= w.limit, s);
      if act == None then None
      else
        var q := act.value;
        Some(World(w.limit, w.inUse + (q.acquired - p.acquired) - (q.released - p.released),
                   w.publications[s.id := q]))
  }

  function Run(limit: nat, steps: seq<Step>): Option<World> {
    if steps == [] then Some(World(limit, 0, map[]))
    else
      var before := Run(limit, steps[..|steps| - 1]);
      if before == None then None else Next(before.value, steps[|steps| - 1])
  }

  // ---------- what one publication keeps ----------

  predicate WaiterInDispatch(p: Publication) {
    p.waiter.Locking? || p.waiter.Submitting?
  }

  predicate CallbackInDispatch(p: Publication) {
    p.callback == CbLocking || p.callback == CbSubmitting
  }

  /** How far the callback is decides what it has written. */
  predicate CallbackFacts(p: Publication) {
    && (p.broker != Silent <==> p.callback != Unarmed && p.callback != Armed)
    && (p.delivered <==> p.broker != Silent && p.callback != Recording && p.callback != Signalling)
    && (p.failed <==> p.broker == Refused && p.callback != Recording)
    && (p.waiter == Acquiring || p.waiter == Producing ==> p.callback == Unarmed)
  }

  /** How far the waiter is decides what it has written; a reported outcome is the broker's. */
  predicate WaiterFacts(p: Publication) {
    && (p.timedOut ==> p.waiter == Rechecking || WaiterInDispatch(p) || p.waiter == Returned(Uncertain))
    && (p.waiter == Rechecking || WaiterInDispatch(p) || p.waiter == Returned(Uncertain) ==> p.timedOut)
    && (p.timedOut || p.waiter == Waiting || p.waiter == Expired ==> p.callback != Unarmed)
    && (WaiterInDispatch(p) ==> p.delivered && p.reconciles)
    && (p.waiter.Locking? ==> p.waiter.succeeded == (p.broker == Acked))
    && (p.waiter.Submitting? ==> p.waiter.succeeded == (p.broker == Acked))
    && (p.waiter == Returned(Delivered) ==> p.broker == Acked)
    && (p.waiter == Returned(Unavailable) ==> p.broker == Refused || p.callback == Unarmed)
    && (p.waiter == Returned(Overloaded) ==> p.callback == Unarmed)
  }

  /** The flag admits one thread; what is submitted is the truth; the last of the two sees the other. */
  predicate DispatchFacts(p: Publication) {
    && (CallbackInDispatch(p) ==> p.timedOut && p.reconciles)
    && (p.dispatched ==> p.timedOut && p.reconciles && p.broker != Silent)
    && !(p.waiter.Submitting? && p.callback == CbSubmitting)
    && (p.waiter.Submitting? || p.callback == CbSubmitting ==> p.dispatched)
    && (p.submitted == if p.dispatched && !p.waiter.Submitting? && p.callback != CbSubmitting
                       then [p.broker == Acked] else [])
    && (p.reconciles && p.timedOut && !p.dispatched ==>
          p.waiter == Rechecking || p.waiter.Locking? ||
          (p.callback != Finished && p.callback != Unarmed))
  }

  /** A slot is held from its acquisition to the callback's release, or to a produce that raised. */
  predicate SlotFacts(p: Publication) {
    && p.acquired == (if p.waiter == Acquiring || (p.waiter == Returned(Overloaded) && p.released == 0) then 0 else 1)
    && p.released == (if p.callback == Testing || CallbackInDispatch(p) || p.callback == Finished
                         || (p.callback == Unarmed && p.waiter.Returned? && p.acquired == 1) then 1 else 0)
    && p.released <= p.acquired
  }

  predicate Sound(p: Publication) {
    CallbackFacts(p) && WaiterFacts(p) && DispatchFacts(p) && SlotFacts(p)
  }

  predicate KeepsItsSlot(p: Publication, q: Publication) {
    q.reconciles == p.reconciles && q.acquired == p.acquired && p.released <= q.released
  }

  lemma {:induction false} WaiterWaits(p: Publication, signalled: bool)
    requires Sound(p) && WaiterAct(p, signalled).Some? && (p.waiter == Waiting || p.waiter == Expired)
    ensures Sound(WaiterAct(p, signalled).value) && KeepsItsSlot(p, WaiterAct(p, signalled).value)
  {
  }

  lemma {:induction false} WaiterRechecks(p: Publication, signalled: bool)
    requires Sound(p) && p.waiter == Rechecking
    ensures Sound(WaiterAct(p, signalled).value) && KeepsItsSlot(p, WaiterAct(p, signalled).value)
  {
  }

  lemma {:induction false} WaiterDispatches(p: Publication, signalled: bool)
    requires Sound(p) && (p.waiter.Locking? || p.waiter.Submitting?)
    ensures Sound(WaiterAct(p, signalled).value) && KeepsItsSlot(p, WaiterAct(p, signalled).value)
  {
  }

  lemma {:induction false} WaiterKeepsSound(p: Publication, signalled: bool)
    requires Sound(p) && WaiterAct(p, signalled).Some?
    ensures Sound(WaiterAct(p, signalled).value) && KeepsItsSlot(p, WaiterAct(p, signalled).value)
  {
    match p.waiter
    case Waiting => WaiterWaits(p, signalled);
    case Expired => WaiterWaits(p, signalled);
    case Rechecking => WaiterRechecks(p, signalled);
    case _ => WaiterDispatches(p, signalled);
  }

  lemma {:induction false} CallbackDelivers(p: Publication)
    requires Sound(p) && (p.callback == Recording || p.callback == Signalling || p.callback == Releasing)
    ensures Sound(CallbackAct(p).value) && KeepsItsSlot(p, CallbackAct(p).value)
  {
  }

  lemma {:induction false} CallbackDispatches(p: Publication)
    requires Sound(p) && (p.callback == Testing || p.callback == CbLocking || p.callback == CbSubmitting)
    ensures Sound(CallbackAct(p).value) && KeepsItsSlot(p, CallbackAct(p).value)
  {
  }

  lemma {:induction false} CallbackKeepsSound(p: Publication)
    requires Sound(p) && CallbackAct(p).Some?
    ensures Sound(CallbackAct(p).value) && KeepsItsSlot(p, CallbackAct(p).value)
  {
    if p.callback == Recording || p.callback == Signalling || p.callback == Releasing {
      CallbackDelivers(p);
    } else {
      CallbackDispatches(p);
    }
  }

  lemma {:induction false} SoundStep(p: Publication, full: bool, s: Step)
    requires Sound(p) && Act(p, full, s).Some?
    ensures var q := Act(p, full, s).value;
      && Sound(q) && q.reconciles == p.reconciles
      && (q.acquired > p.acquired ==> !full) && p.acquired <= q.acquired && p.released <= q.released
  {
    if s.WaiterMoves? {
      WaiterKeepsSound(p, s.signalled);
    } else if s.CallbackMoves? {
      CallbackKeepsSound(p);
    }
  }

  // ---------- the slots ----------

  ghost function Holders(ps: map<nat, Publication>): set<nat> {
    set id | id in ps && ps[id].acquired > ps[id].released
  }

  ghost predicate WorldSound(w: World) {
    && (forall id :: id in w.publications ==> Sound(w.publications[id]))
    && w.inUse == |Holders(w.publications)| <= w.limit
  }

  lemma {:induction false} HoldersAfter(ps: map<nat, Publication>, id: nat, q: Publication)
    ensures var before, after := id in Holders(ps), q.acquired > q.released;
      |Holders(ps[id := q])| - |Holders(ps)| ==
        (if after then 1 else 0) - (if before then 1 else 0)
  {
    var h := Holders(ps) - {id};
    assert Holders(ps[id := q]) == if q.acquired > q.released then h + {id} else h;
    assert Holders(ps) == if id in Holders(ps) then h + {id} else h;
  }

  /** The semaphore follows the slots of the publication that moved. */
  lemma {:induction false} OneMoved(w: World, id: nat, q: Publication)
    requires WorldSound(w) && id in w.publications && Sound(q)
    requires q.acquired > w.publications[id].acquired ==> w.inUse < w.limit
    requires w.publications[id].acquired <= q.acquired && w.publications[id].released <= q.released
    ensures var p := w.publications[id];
      var inUse := w.inUse + (q.acquired - p.acquired) - (q.released - p.released);
      WorldSound(World(w.limit, inUse, w.publications[id := q]))
  {
    assert Sound(w.publications[id]);
    HoldersAfter(w.publications, id, q);
  }

  lemma {:induction false} BeginIsSound(w: World, id: nat, reconciles: bool)
    requires WorldSound(w) && id !in w.publications
    ensures WorldSound(w.(publications := w.publications[id := Fresh(reconciles)]))
  {
    HoldersAfter(w.publications, id, Fresh(reconciles));
  }

  lemma {:induction false} ActIsSound(w: World, s: Step)
    requires WorldSound(w) && !s.Begin? && Next(w, s).Some?
    ensures WorldSound(Next(w, s).value)
  {
    var p, full := w.publications[s.id], w.inUse >= w.limit;
    SoundStep(p, full, s);
    OneMoved(w, s.id, Act(p, full, s).value);
  }

  lemma {:induction false} WorldSoundStep(w: World, s: Step)
    requires WorldSound(w) && Next(w, s).Some?
    ensures WorldSound(Next(w, s).value)
  {
    if s.Begin? {
      BeginIsSound(w, s.id, s.reconciles);
    } else {
      ActIsSound(w, s);
    }
  }

  lemma {:induction false} WorldSoundAlways(limit: nat, steps: seq<Step>)
    requires Run(limit, steps).Some?
    ensures WorldSound(Run(limit, steps).value) && Run(limit, steps).value.limit == limit
  {
    if steps != [] {
      WorldSoundAlways(limit, steps[..|steps| - 1]);
      WorldSoundStep(Run(limit, steps[..|steps| - 1]).value, steps[|steps| - 1]);
    }
  }

  // ---------- the results ----------

  /**
   Every interleaving: late reconciliation happens at most once, only after a timeout, and with
   the broker's true outcome; once both threads are through after a timeout it has happened.
   */
  lemma {:induction false} ReconciledExactlyOnce(limit: nat, steps: seq<Step>, id: nat)
    requires Run(limit, steps).Some? && id in Run(limit, steps).value.publications
    ensures var p := Run(limit, steps).value.publications[id];
      && |p.submitted| <= 1
      && (p.submitted != [] ==>
            p.timedOut && p.reconciles && p.broker != Silent && p.submitted[0] == (p.broker == Acked))
      && (p.waiter.Returned? && p.callback == Finished ==>
            (p.submitted != [] <==> p.reconciles && p.waiter.outcome == Uncertain))
  {
    WorldSoundAlways(limit, steps);
  }

  /** What publish_and_wait reports without a timeout is what the broker said. */
  lemma {:induction false} OutcomesAreTrue(limit: nat, steps: seq<Step>, id: nat)
    requires Run(limit, steps).Some? && id in Run(limit, steps).value.publications
    ensures var p := Run(limit, steps).value.publications[id];
      && (p.waiter == Returned(Delivered) ==> p.broker == Acked)
      && (p.waiter == Returned(Unavailable) ==> p.broker == Refused || p.callback == Unarmed)
      && (p.waiter == Returned(Uncertain) ==> p.timedOut && p.callback != Unarmed)
      && (p.waiter == Returned(Overloaded) ==> p.callback == Unarmed)
  {
    WorldSoundAlways(limit, steps);
  }

  /**
   Slots: never more in use than the limit, the semaphore counts exactly the publications holding
   one, and a publication that is through has released the slot it took, once.
   */
  lemma {:induction false} SlotsBalance(limit: nat, steps: seq<Step>)
    requires Run(limit, steps).Some?
    ensures var w := Run(limit, steps).value;
      && 0 <= w.inUse <= limit
      && w.inUse == |Holders(w.publications)|
      && (forall id :: id in w.publications ==>
            var p := w.publications[id];
            && p.released <= p.acquired <= 1
            && (p.waiter.Returned? && (p.callback == Finished || p.callback == Unarmed) ==> p.released == p.acquired))
  {
    WorldSoundAlways(limit, steps);
  }
}

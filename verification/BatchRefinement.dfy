/** A message of a batch, as BatchDelivery runs it, is a batched request of CustodyProtocol until its owner acts. */
module BatchRefinement {
  import opened Prelude
  import opened IdentityStore
  import B = BatchDelivery
  import P = CustodyProtocol

  /** What the owner is about to do, going by the outcome it would read; once it timed out, it has timed out. */
  function MainOf(m: B.Message): P.Main {
    if m.waiter == B.Producing then P.Publishing
    else if m.timedOut then (if m.overwrote then P.Releasing else P.Marking)
    else if m.callback == B.Unarmed then P.Releasing
    else if m.waiter != B.Done then P.Waiting
    else if m.cell == B.Clear then P.Finalizing
    else P.Releasing
  }

  function DeliveryOf(m: B.Message): P.Delivery {
    if m.callback == B.Unarmed then P.NotSent
    else
      match m.broker
      case Silent => P.InFlight
      case Acked => P.Delivery.Acked
      case Refused => P.Failed
  }

  /** Past the deadline, the failure of an unsent message is as good as dispatched. */
  function LateOf(m: B.Message): P.Late {
    if m.callback == B.Unarmed then (if m.timedOut then P.Queued(false) else P.NoLate)
    else if m.dispatched then P.Queued(m.broker == B.Acked)
    else P.NoLate
  }

  function Seen(m: B.Message, fp: Digest): P.Request {
    P.Request(fp, false, true, MainOf(m), DeliveryOf(m), m.timedOut, LateOf(m))
  }

  /** The step of the protocol that a step on a message is, if it is one. */
  function StepSeen(m: B.Message, s: B.Step, id: nat): Option<P.Step> {
    match s
    case Produce(_, _, raised) => Some(if raised == None then P.Produce(id) else P.ProduceRaises(id, true))
    case Report(_, _, ok) => Some(P.Broker(id, ok))
    case WaiterMoves(_, _, woken) =>
      (match m.waiter
       case Blocking => if woken && m.callback != B.Unarmed then Some(P.Delivered(id)) else None
       case Late => Some(if m.callback == B.Unarmed then P.UnsentExpires(id) else P.Timeout(id))
       case Locking(_) => if m.callback != B.Unarmed && !m.dispatched then Some(P.DispatchLate(id)) else None
       case _ => None)
    case CallbackMoves(_, _) =>
      (match m.callback
       case Recording => if m.broker == B.Refused && m.cell == B.Uncertain then Some(P.OverwriteOutcome(id)) else None
       case CbLocking => if !m.dispatched then Some(P.DispatchLate(id)) else None
       case _ => None)
    case _ => None
  }

  /** `n` after a step of `m` is what the protocol's step, or no step, makes of it. */
  predicate Follows(m: B.Message, n: B.Message, p: Option<P.Step>, fp: Digest, entry: Option<Entry>, acks: bool) {
    if p == None then Seen(n, fp) == Seen(m, fp) && !acks
    else
      && P.RequestOwned(p.value)
      && P.Act(Seen(m, fp), entry, None, p.value) == Some(P.Effect(Seen(n, fp), entry, None, false, acks))
  }

  lemma {:induction false} ProduceIsSeen(m: B.Message, s: B.Step, fp: Digest, entry: Option<Entry>, id: nat)
    requires B.Sound(m) && s.Produce? && B.ProduceAct(m, s.raised).Some?
    ensures Follows(m, B.ProduceAct(m, s.raised).value, StepSeen(m, s, id), fp, entry, false)
  {
  }

  lemma {:induction false} WaiterIsSeen(
    m: B.Message, expired: bool, s: B.Step, fp: Digest, entry: Option<Entry>, id: nat)
    requires B.Sound(m) && s.WaiterMoves? && B.WaiterAct(m, expired, s.woken).Some?
    ensures Follows(m, B.WaiterAct(m, expired, s.woken).value, StepSeen(m, s, id), fp, entry, false)
  {
  }

  lemma {:induction false} CallbackIsSeen(m: B.Message, s: B.Step, fp: Digest, entry: Option<Entry>, id: nat)
    requires B.Sound(m) && s.CallbackMoves? && B.CallbackAct(m).Some?
    ensures Follows(m, B.CallbackAct(m).value, StepSeen(m, s, id), fp, entry, false)
  {
  }

  /**
   Every step of the batch dispatcher on a message is the named step of the protocol on its request, or
   none: the protocol's batched requests leave nothing out that the dispatcher can do.
   */
  lemma {:induction false} StepIsSeen(
    m: B.Message, expired: bool, s: B.Step, fp: Digest, entry: Option<Entry>, id: nat)
    requires B.Sound(m) && B.OnMessage(s) && B.Act(m, expired, s).Some?
    ensures Follows(m, B.Act(m, expired, s).value, StepSeen(m, s, id), fp, entry, s.Report? && s.ok)
  {
    match s
    case Produce(_, _, _) => ProduceIsSeen(m, s, fp, entry, id);
    case WaiterMoves(_, _, _) => WaiterIsSeen(m, expired, s, fp, entry, id);
    case CallbackMoves(_, _) => CallbackIsSeen(m, s, fp, entry, id);
    case _ =>
  }

  // ---------- whole runs ----------

  const BATCHES := P.Setting(false, true, {})

  /** The one request of the run is the message as seen by the protocol, and holds the claim. */
  ghost predicate Mirrors(w: P.World, m: B.Message, fp: Digest) {
    w.requests == map[0 := Seen(m, fp)] && w.entry == Some(Entry(Pending, fp)) && w.outbox == None
  }

  lemma {:induction false} Claims(fp: Digest) returns (t: seq<P.Step>, w: P.World)
    ensures P.Run(t, BATCHES) == Some(w)
    ensures w.requests == map[0 := P.Request(fp, false, true, P.Publishing, P.NotSent, false, P.NoLate)]
    ensures w.entry == Some(Entry(Pending, fp)) && w.outbox == None
  {
    t, w := [], P.START;
    t, w := P.Do(t, w, P.Arrive(0, fp, false, true), BATCHES);
    t, w := P.Do(t, w, P.ClaimIdentity(0, P.Answered), BATCHES);
  }

  lemma {:induction false} Acquires(m: B.Message, fp: Digest) returns (t: seq<P.Step>, w: P.World)
    requires m == B.WithSlot(m.reconciles) || m == B.WithoutSlot(m.reconciles)
    ensures P.Run(t, BATCHES) == Some(w) && Mirrors(w, m, fp)
  {
    t, w := Claims(fp);
    if m == B.WithoutSlot(m.reconciles) {
      t, w := P.Do(t, w, P.ProduceRaises(0, true), BATCHES);
    }
  }

  lemma {:induction false} Moves(
    t: seq<P.Step>, w: P.World, m: B.Message, n: B.Message, p: Option<P.Step>, fp: Digest, acks: bool)
    returns (t': seq<P.Step>, w': P.World)
    requires P.Run(t, BATCHES) == Some(w) && Mirrors(w, m, fp)
    requires Follows(m, n, p, fp, w.entry, acks) && (p.Some? ==> P.RequestOwned(p.value) && p.value.id == 0)
    ensures P.Run(t', BATCHES) == Some(w') && Mirrors(w', n, fp)
  {
    t', w' := t, w;
    if p.Some? {
      assert w.requests[0] == Seen(m, fp);
      t', w' := P.Do(t, w, p.value, BATCHES);
    }
  }

  /**
   Whatever the dispatcher does with a message, in any interleaving with any other messages and batches,
   is a run of the protocol on its request up to where its owner acts on the outcome.
   */
  lemma {:induction false} MessagesAreRequests(limit: nat, steps: seq<B.Step>, id: (nat, nat), fp: Digest)
    returns (t: seq<P.Step>, w: P.World)
    requires B.Run(limit, steps).Some? && id in B.Run(limit, steps).value.messages
    ensures P.Run(t, BATCHES) == Some(w) && Mirrors(w, B.Run(limit, steps).value.messages[id], fp)
  {
    var before, s := B.Run(limit, steps[..|steps| - 1]).value, steps[|steps| - 1];
    var m := B.Run(limit, steps).value.messages[id];
    if id !in before.messages {
      t, w := Acquires(m, fp);
    } else {
      t, w := MessagesAreRequests(limit, steps[..|steps| - 1], id, fp);
      if B.OnMessage(s) && (s.batch, s.index) == id {
        B.Always(limit, steps[..|steps| - 1]);
        StepIsSeen(before.messages[id], before.batches[s.batch].expired, s, fp, w.entry, 0);
        t, w := Moves(t, w, before.messages[id], m, StepSeen(before.messages[id], s, 0), fp, s.Report? && s.ok);
      }
    }
  }
}

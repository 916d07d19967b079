/** A single publication, as DeliveryRace runs it, is a request of CustodyProtocol until its owner acts. */
module DeliveryRefinement {
  import opened Prelude
  import opened IdentityStore
  import R = DeliveryRace
  import P = CustodyProtocol

  // In outbox mode publish_envelope gives no callback for late reports, otherwise accept always does, so a
  // publication without one is a buffered request's.

  /** What the owner is about to do, going by the outcome it gets. */
  function MainOf(p: R.Publication): P.Main {
    if p.waiter == R.Acquiring || p.waiter == R.Producing then P.Publishing
    else if p.timedOut then (if p.reconciles then P.Marking else P.Finalizing)
    else if p.waiter == R.Returned(R.Delivered) then (if p.reconciles then P.Finalizing else P.Removing)
    else if p.waiter == R.Returned(R.Overloaded) then (if p.reconciles then P.Releasing else P.Over(P.Raised))
    else if p.waiter.Returned? then (if p.reconciles then P.Releasing else P.Finalizing)
    else P.Waiting
  }

  function DeliveryOf(p: R.Publication): P.Delivery {
    if p.callback == R.Unarmed then P.NotSent
    else
      match p.broker
      case Silent => P.InFlight
      case Acked => P.Delivery.Acked
      case Refused => P.Failed
  }

  function Seen(p: R.Publication, fp: Digest): P.Request {
    P.Request(fp, !p.reconciles, false, MainOf(p), DeliveryOf(p), p.timedOut && p.reconciles,
              if p.dispatched then P.Queued(p.broker == R.Acked) else P.NoLate)
  }

  /** The step of the protocol that a step on a publication is, if it is one. */
  function StepSeen(p: R.Publication, full: bool, s: R.Step, id: nat): Option<P.Step> {
    match s
    case Begin(_, _) => None
    case Acquire(_) => if full then Some(P.ProduceRaises(id, true)) else None
    case Produce(_, raised) =>
      Some(if raised == None then P.Produce(id) else P.ProduceRaises(id, raised.value == R.Overloaded))
    case Report(_, ok) => Some(P.Broker(id, ok))
    case WaiterMoves(_, signalled) =>
      (match p.waiter
       case Waiting => if signalled then Some(P.Delivered(id)) else None
       case Expired => Some(P.Timeout(id))
       case Locking(_) => if !p.dispatched then Some(P.DispatchLate(id)) else None
       case _ => None)
    case CallbackMoves(_) =>
      if p.callback == R.CbLocking && !p.dispatched then Some(P.DispatchLate(id)) else None
  }

  /** `q` after a step of `p` is what the protocol's step, or no step, makes of it. */
  predicate Follows(p: R.Publication, q: R.Publication, step: Option<P.Step>, fp: Digest, entry: Option<Entry>,
                    outbox: Option<Digest>, acks: bool)
  {
    if step == None then Seen(q, fp) == Seen(p, fp) && !acks
    else
      && P.RequestOwned(step.value)
      && P.Act(Seen(p, fp), entry, outbox, step.value) == Some(P.Effect(Seen(q, fp), entry, outbox, false, acks))
  }

  lemma {:induction false} WaiterIsSeen(
    p: R.Publication, full: bool, s: R.Step, fp: Digest, entry: Option<Entry>, outbox: Option<Digest>, id: nat)
    requires R.Sound(p) && s.WaiterMoves? && R.WaiterAct(p, s.signalled).Some?
    ensures Follows(p, R.WaiterAct(p, s.signalled).value, StepSeen(p, full, s, id), fp, entry, outbox, false)
  {
  }

  lemma {:induction false} CallbackIsSeen(
    p: R.Publication, full: bool, s: R.Step, fp: Digest, entry: Option<Entry>, outbox: Option<Digest>, id: nat)
    requires R.Sound(p) && s.CallbackMoves? && R.CallbackAct(p).Some?
    ensures Follows(p, R.CallbackAct(p).value, StepSeen(p, full, s, id), fp, entry, outbox, false)
  {
  }

  /** Every step of either thread on a publication is the named step of the protocol on its request, or none. */
  lemma {:induction false} StepIsSeen(
    p: R.Publication, full: bool, s: R.Step, fp: Digest, entry: Option<Entry>, outbox: Option<Digest>, id: nat)
    requires R.Sound(p) && R.Act(p, full, s).Some?
    ensures
      Follows(p, R.Act(p, full, s).value, StepSeen(p, full, s, id), fp, entry, outbox, s.Report? && s.ok)
  {
    match s
    case WaiterMoves(_, _) => WaiterIsSeen(p, full, s, fp, entry, outbox, id);
    case CallbackMoves(_) => CallbackIsSeen(p, full, s, fp, entry, outbox, id);
    case _ =>
  }

  // ---------- whole runs ----------

  /** The one request of the run is the publication as seen by the protocol, and holds the claim. */
  ghost predicate Mirrors(w: P.World, p: R.Publication, fp: Digest) {
    && w.requests == map[0 := Seen(p, fp)] && w.entry == Some(Entry(Pending, fp))
    && w.outbox == if p.reconciles then None else Some(fp)
  }

  function SettingOf(reconciles: bool, fp: Digest): P.Setting {
    P.Setting(false, false, if reconciles then {} else {fp})
  }

  /** The owner has claimed the identity and, in outbox mode, stored its envelope. */
  lemma {:induction false} Begins(reconciles: bool, fp: Digest) returns (t: seq<P.Step>, w: P.World)
    ensures P.Run(t, SettingOf(reconciles, fp)) == Some(w) && Mirrors(w, R.Fresh(reconciles), fp)
  {
    var c := SettingOf(reconciles, fp);
    t, w := [], P.START;
    t, w := P.Do(t, w, P.Arrive(0, fp, !reconciles, false), c);
    t, w := P.Do(t, w, P.ClaimIdentity(0, P.Answered), c);
    if !reconciles {
      t, w := P.Do(t, w, P.StoreEnvelope(0, P.Answered), c);
    }
  }

  lemma {:induction false} Moves(
    t: seq<P.Step>, w: P.World, p: R.Publication, q: R.Publication, step: Option<P.Step>, fp: Digest, acks: bool)
    returns (t': seq<P.Step>, w': P.World)
    requires P.Run(t, SettingOf(p.reconciles, fp)) == Some(w) && Mirrors(w, p, fp) && q.reconciles == p.reconciles
    requires Follows(p, q, step, fp, w.entry, w.outbox, acks)
    requires step.Some? ==> P.RequestOwned(step.value) && step.value.id == 0
    ensures P.Run(t', SettingOf(q.reconciles, fp)) == Some(w') && Mirrors(w', q, fp)
  {
    t', w' := t, w;
    if step.Some? {
      assert w.requests[0] == Seen(p, fp);
      t', w' := P.Do(t, w, step.value, SettingOf(p.reconciles, fp));
    }
  }

  /**
   Whatever the two threads do with a publication, in any interleaving with others and with the semaphore, is
   a run of the protocol on its request up to where its owner acts on the outcome.
   */
  lemma {:induction false} PublicationsAreRequests(limit: nat, steps: seq<R.Step>, id: nat, fp: Digest)
    returns (t: seq<P.Step>, w: P.World)
    requires R.Run(limit, steps).Some? && id in R.Run(limit, steps).value.publications
    ensures
      var p := R.Run(limit, steps).value.publications[id];
      P.Run(t, SettingOf(p.reconciles, fp)) == Some(w) && Mirrors(w, p, fp)
  {
    var before, s := R.Run(limit, steps[..|steps| - 1]).value, steps[|steps| - 1];
    var q := R.Run(limit, steps).value.publications[id];
    if id !in before.publications {
      t, w := Begins(q.reconciles, fp);
    } else {
      var p, full := before.publications[id], before.inUse >= before.limit;
      t, w := PublicationsAreRequests(limit, steps[..|steps| - 1], id, fp);
      if !s.Begin? && s.id == id {
        R.WorldSoundAlways(limit, steps[..|steps| - 1]);
        assert R.Sound(p);
        R.SoundStep(p, full, s);
        StepIsSeen(p, full, s, fp, w.entry, w.outbox, 0);
        t, w := Moves(t, w, p, q, StepSeen(p, full, s, 0), fp, s.Report? && s.ok);
      }
    }
  }
}

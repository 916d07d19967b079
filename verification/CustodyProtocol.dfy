/** Token Event Custody as a protocol (api/ingestion.py, api/gateway/outbox.py). */
module CustodyProtocol {
  import opened Prelude
  import opened IdentityStore

  // Any number of requests for ONE identity, interleaved with callbacks, late reconciliation, failures,
  // expiry and the outbox. A Redis call is applied and answered, applied but its reply lost, or not applied.

  datatype Answer = Custody | Replay(verdict: Claim) | Unknown | Refused | Raised

  datatype Main =
    | Fresh        // about to claim the identity
    | Storing      // owner in buffer mode, about to store the envelope in the outbox
    | Publishing   // owner, about to call produce
    | Waiting      // produced, waiting for the delivery callback
    | Removing     // buffer mode, acknowledged, about to remove the envelope from the outbox
    | Finalizing   // about to mark the identity accepted
    | Marking      // about to mark the identity uncertain
    | Releasing    // about to release the identity
    | Over(answer: Answer)

  datatype Delivery = NotSent | InFlight | Acked | Failed

  datatype Late = NoLate | Queued(succeeded: bool) | Settled

  datatype Request = Request(
    fp: Digest, buffered: bool, batched: bool, main: Main, delivery: Delivery, timedOut: bool, late: Late)

  /** A pass of the outbox worker over the stored envelope. */
  datatype Flush = Sent(fp: Digest) | Confirmed(fp: Digest)

  datatype World = World(
    entry: Option<Entry>,
    requests: map<nat, Request>,
    outbox: Option<Digest>,
    flushes: map<nat, Flush>,
    // bookkeeping, not state of the program: broker acknowledgements, and whose claim is in force
    acks: nat,
    acked: set<Digest>,
    owner: Option<nat>)

  const START := World(None, map[], None, map[], 0, {}, None)

  datatype Reply = Answered | LostReply | NotApplied

  datatype Step =
    | Arrive(id: nat, fp: Digest, buffered: bool, batched: bool)
    | ClaimIdentity(id: nat, reply: Reply)
    | Produce(id: nat)
    | ProduceRaises(id: nat, queueFull: bool)
    | Broker(id: nat, ok: bool)
    | Delivered(id: nat)
    | Timeout(id: nat)
    | DispatchLate(id: nat)
    | Remember(id: nat, reply: Reply)
    | RememberGivesUp(id: nat)
    | MarkUncertain(id: nat, reply: Reply)
    | Release(id: nat, reply: Reply)
    | LateRemember(id: nat, reply: Reply)
    | LateEnds(id: nat)
    | LateRelease(id: nat, reply: Reply)
    | OverwriteOutcome(id: nat)
    | UnsentExpires(id: nat)
    | StoreEnvelope(id: nat, reply: Reply)
    | RemoveEnvelope(id: nat, reply: Reply)
    | FlushSend(worker: nat)
    | FlushAck(worker: nat)
    | FlushRemove(worker: nat)
    | FlushDrop(worker: nat)
    | Expire

  // ---------- the scripts on one identity ----------

  function Transitioned(e: Option<Entry>, fp: Digest, target: Status): Option<Entry> {
    if e.Some? && Moves(e.value, fp, target) then Some(Entry(target, fp)) else e
  }

  function Released(e: Option<Entry>, fp: Digest): Option<Entry> {
    if e.Some? && Releasable(e.value, fp) then None else e
  }

  // ---------- one step ----------

  /** What a step of one request does to the request, the identity, the outbox and the broker. */
  datatype Effect = Effect(
    request: Request, entry: Option<Entry>, outbox: Option<Digest>, claims: bool, acks: bool)

  predicate RequestOwned(s: Step) {
    !s.Arrive? && !s.Expire? && !s.FlushSend? && !s.FlushAck? && !s.FlushRemove? && !s.FlushDrop?
  }

  /** The world after a step, or None when the step is not possible there. */
  function Next(w: World, s: Step): Option<World> {
    match s
    case Arrive(id, fp, buffered, batched) =>
      if id in w.requests || (buffered && batched) then None
      else
        var r := Request(fp, buffered, batched, Fresh, NotSent, false, NoLate);
        Some(w.(requests := w.requests[id := r]))
    case Expire => Some(w.(entry := None, owner := None))
    case FlushSend(k) =>
      if k in w.flushes || w.outbox == None then None
      else Some(w.(flushes := w.flushes[k := Sent(w.outbox.value)]))
    case FlushAck(k) =>
      if k !in w.flushes || !w.flushes[k].Sent? then None
      else Some(w.(flushes := w.flushes[k := Confirmed(w.flushes[k].fp)],
                   acks := w.acks + 1, acked := w.acked + {w.flushes[k].fp}))
    case FlushRemove(k) =>
      if k !in w.flushes || !w.flushes[k].Confirmed? then None
      else Some(w.(flushes := w.flushes - {k}, outbox := None))
    case FlushDrop(k) =>
      if k !in w.flushes then None else Some(w.(flushes := w.flushes - {k}))
    case _ =>
      if s.id !in w.requests then None else
      var act := Act(w.requests[s.id], w.entry, w.outbox, s);
      if act == None then None else Some(Apply(w, s.id, act.value))
  }

  function Apply(w: World, id: nat, x: Effect): World {
    World(x.entry, w.requests[id := x.request], x.outbox, w.flushes,
          if x.acks then w.acks + 1 else w.acks,
          if x.acks then w.acked + {x.request.fp} else w.acked,
          if x.entry == None then None else if x.claims then Some(id) else w.owner)
  }

  function Act(r: Request, entry: Option<Entry>, outbox: Option<Digest>, s: Step): Option<Effect>
    requires RequestOwned(s)
  {
    var same := Effect(r, entry, outbox, false, false);
    match s
    case ClaimIdentity(_, reply) =>
      if r.main != Fresh then None else
      var verdict := Verdict(entry, r.fp);
      var main := if !reply.Answered? then Over(Raised)
                  else if verdict != Owner then Over(Replay(verdict))
                  else if r.buffered then Storing else Publishing;
      if reply.NotApplied? || verdict != Owner then Some(same.(request := r.(main := main)))
      else Some(same.(request := r.(main := main), entry := Some(Entry(Pending, r.fp)), claims := true))
    case Produce(_) =>
      if r.main != Publishing then None
      else Some(same.(request := r.(main := Waiting, delivery := InFlight)))
    case ProduceRaises(_, queueFull) =>
      if r.main != Publishing then None
      else Some(same.(request := r.(main :=
        if !r.buffered then Releasing else if queueFull then Over(Raised) else Finalizing)))
    case Broker(_, ok) =>
      if r.delivery != InFlight then None
      else Some(same.(request := r.(delivery := if ok then Acked else Failed), acks := ok))
    case Delivered(_) =>
      if r.main != Waiting || (r.delivery != Acked && r.delivery != Failed) then None
      else if r.delivery == Acked then Some(same.(request := r.(main := if r.buffered then Removing else Finalizing)))
      else Some(same.(request := r.(main := if r.buffered then Finalizing else Releasing)))
    case Timeout(_) =>
      if r.main != Waiting then None
      else if r.buffered then Some(same.(request := r.(main := Finalizing)))
      else Some(same.(request := r.(main := Marking, timedOut := true)))
    case DispatchLate(_) =>
      if !r.timedOut || r.late != NoLate || r.delivery == NotSent || r.delivery == InFlight then None
      else Some(same.(request := r.(late := Queued(r.delivery == Acked))))
    case Remember(_, reply) =>
      if r.main != Finalizing then None else
      var e := if reply.NotApplied? then entry else Transitioned(entry, r.fp, Accepted);
      var main := if !reply.Answered? then Finalizing
                  else if e == Some(Entry(Accepted, r.fp)) then Over(Custody) else Marking;
      Some(same.(request := r.(main := main), entry := e))
    case RememberGivesUp(_) =>
      if r.main != Finalizing then None else Some(same.(request := r.(main := Marking)))
    case MarkUncertain(_, reply) =>
      if r.main != Marking then None else
      var e := if reply.NotApplied? then entry else Transitioned(entry, r.fp, Uncertain);
      Some(same.(request := r.(main := Over(Unknown)), entry := e))
    case Release(_, reply) =>
      if r.main != Releasing then None else
      var e := if reply.NotApplied? then entry else Released(entry, r.fp);
      Some(same.(request := r.(main := Over(if reply.Answered? then Refused else Raised)), entry := e))
    case LateRemember(_, reply) =>
      if r.late != Queued(true) then None
      else Some(same.(entry := if reply.NotApplied? then entry else Transitioned(entry, r.fp, Accepted)))
    case LateEnds(_) =>
      if r.late != Queued(true) then None else Some(same.(request := r.(late := Settled)))
    case LateRelease(_, reply) =>
      if r.late != Queued(false) then None else
      var e := if reply.NotApplied? then entry else Released(entry, r.fp);
      Some(same.(request := r.(late := Settled), entry := e))
    case OverwriteOutcome(_) =>
      // publish_batch_and_wait returns its live list: a late error callback may still replace
      // the recorded timeout by a definite failure before the caller reads it (module BatchDelivery)
      if !r.batched || r.main != Marking || !r.timedOut || r.delivery != Failed then None
      else Some(same.(request := r.(main := Releasing)))
    case UnsentExpires(_) =>
      // past the deadline, publish_batch_and_wait overwrites the failure of a message it never sent
      // by a timeout, and dispatches its late reconciliation itself
      if !r.batched || r.buffered || r.main != Releasing || r.delivery != NotSent || r.timedOut then None
      else Some(same.(request := r.(main := Marking, timedOut := true, late := Queued(false))))
    case StoreEnvelope(_, reply) =>
      if r.main != Storing then None else
      var main := if reply.Answered? then Publishing else Over(Raised);
      Some(same.(request := r.(main := main), outbox := if reply.NotApplied? then outbox else Some(r.fp)))
    case RemoveEnvelope(_, reply) =>
      if r.main != Removing then None else
      var main := if reply.Answered? then Finalizing else Over(Raised);
      Some(same.(request := r.(main := main), outbox := if reply.NotApplied? then outbox else None))
  }

  // ---------- runs ----------

  /** What a deployment exposes an identity to. */
  datatype Setting = Setting(expiry: bool, batches: bool, bufferedFps: set<Digest>)

  predicate Allowed(s: Step, c: Setting) {
    match s
    case Expire => c.expiry
    case Arrive(_, fp, buffered, batched) => (batched ==> c.batches) && (buffered ==> fp in c.bufferedFps)
    case _ => true
  }

  /** The world a run leads to, or None when some step of it is impossible or not allowed. */
  function Run(steps: seq<Step>, c: Setting): Option<World> {
    if steps == [] then Some(START)
    else
      var before := Run(steps[..|steps| - 1], c);
      var s := steps[|steps| - 1];
      if before == None || !Allowed(s, c) then None else Next(before.value, s)
  }

  // ---------- every step keeps what is accepted ----------

  /**
   Only expiry removes an accepted identity, nothing downgrades it, and as long as an identity is
   there its fingerprint stays. This holds in every world, reachable or not.
   */
  lemma {:induction false} AcceptedStays(w: World, s: Step)
    requires Next(w, s).Some? && s != Expire && w.entry.Some?
    ensures var e := Next(w, s).value.entry;
      && (w.entry.value.status == Accepted ==> e == w.entry)
      && (e.Some? ==> e.value.fp == w.entry.value.fp)
  {
  }

  // ---------- at most one acknowledged publication ----------

  const PLAIN := Setting(false, false, {})

  /** A request that has lost or never had the claim: it can neither publish nor release. */
  predicate Idle(r: Request) {
    && (r.delivery == NotSent || r.delivery == Failed)
    && (r.main == Fresh ==> r.delivery == NotSent && !r.timedOut)
    && (r.main == Fresh || r.main == Marking || (r.main.Over? && r.main.answer != Custody))
    && (if r.timedOut then r.late == Settled else r.late == NoLate)
  }

  predicate OwnerConsistent(r: Request, status: Status) {
    && r.main != Fresh && r.main != Storing && r.main != Removing
    && (status == Accepted ==> r.delivery == Acked)
    && (r.main == Publishing ==> r.delivery == NotSent)
    && (r.main == Waiting ==> r.delivery != NotSent)
    && (r.main == Finalizing ==> r.delivery == Acked)
    && (r.main == Releasing ==> r.delivery == NotSent || r.delivery == Failed)
    && (r.timedOut ==> (r.main == Marking || r.main.Over?) && r.delivery != NotSent)
    && (!r.timedOut ==> r.late == NoLate)
    && (r.late.Queued? ==> r.delivery == if r.late.succeeded then Acked else Failed)
    && (r.main == Over(Custody) ==> status == Accepted)
  }

  ghost predicate SingleOwner(w: World) {
    && w.outbox == None && w.flushes == map[]
    && (w.owner == None <==> w.entry == None)
    && (forall id :: id in w.requests ==> !w.requests[id].buffered && !w.requests[id].batched)
    && (forall id :: id in w.requests && w.owner != Some(id) ==> Idle(w.requests[id]))
    && (w.owner == None ==> w.acks == 0)
    && (w.owner.Some? ==>
          && w.owner.value in w.requests
          && var r := w.requests[w.owner.value];
             && w.entry.value.fp == r.fp
             && OwnerConsistent(r, w.entry.value.status)
             && w.acks == (if r.delivery == Acked then 1 else 0))
  }

  /** A request without the claim leaves the claim alone, or takes it when the identity is absent. */
  lemma {:induction false} IdleActs(r: Request, e: Option<Entry>, s: Step)
    requires RequestOwned(s) && !r.buffered && !r.batched && Idle(r)
    ensures var act := Act(r, e, None, s); act.Some? ==>
      && var x := act.value;
      && !x.acks && x.outbox == None && x.request.fp == r.fp && !x.request.buffered && !x.request.batched
      && (if x.claims then
            e == None && x.entry == Some(Entry(Pending, r.fp)) && OwnerConsistent(x.request, Pending)
            && x.request.delivery == NotSent
          else
            Idle(x.request) && (e == None <==> x.entry == None)
            && (e.Some? ==> x.entry.value.fp == e.value.fp
                            && (x.entry.value.status == Accepted <==> e.value.status == Accepted)))
  {
  }

  /** The owner keeps a consistent claim, or gives it up for good. */
  lemma {:induction false} OwnerActs(r: Request, e: Entry, s: Step)
    requires RequestOwned(s) && !r.buffered && !r.batched
    requires e.fp == r.fp && OwnerConsistent(r, e.status)
    ensures var act := Act(r, Some(e), None, s); act.Some? ==>
      && var x := act.value;
      && !x.claims && x.outbox == None && x.request.fp == r.fp && !x.request.buffered && !x.request.batched
      && (x.acks <==> r.delivery != Acked && x.request.delivery == Acked)
      && (r.delivery == Acked ==> x.request.delivery == Acked)
      && (if x.entry == None then Idle(x.request)
          else x.entry.value.fp == r.fp && OwnerConsistent(x.request, x.entry.value.status))
  {
  }

  lemma {:induction false} NextIsApply(w: World, s: Step)
    requires RequestOwned(s) && Next(w, s).Some?
    ensures s.id in w.requests && Act(w.requests[s.id], w.entry, w.outbox, s).Some?
    ensures Next(w, s).value == Apply(w, s.id, Act(w.requests[s.id], w.entry, w.outbox, s).value)
  {
  }

  lemma {:induction false} SingleOwnerByOwner(w: World, id: nat, s: Step, x: Effect)
    requires SingleOwner(w) && RequestOwned(s) && w.owner == Some(id)
    requires Act(w.requests[id], w.entry, None, s) == Some(x)
    ensures SingleOwner(Apply(w, id, x))
  {
    OwnerActs(w.requests[id], w.entry.value, s);
  }

  lemma {:induction false} SingleOwnerByIdle(w: World, id: nat, s: Step, x: Effect)
    requires SingleOwner(w) && RequestOwned(s) && w.owner != Some(id) && id in w.requests
    requires Act(w.requests[id], w.entry, None, s) == Some(x)
    ensures SingleOwner(Apply(w, id, x))
  {
    IdleActs(w.requests[id], w.entry, s);
  }

  lemma {:induction false} SingleOwnerStep(w: World, s: Step)
    requires SingleOwner(w) && Allowed(s, PLAIN) && Next(w, s).Some?
    ensures SingleOwner(Next(w, s).value)
  {
    if RequestOwned(s) {
      NextIsApply(w, s);
      if w.owner == Some(s.id) {
        SingleOwnerByOwner(w, s.id, s, Act(w.requests[s.id], w.entry, w.outbox, s).value);
      } else {
        SingleOwnerByIdle(w, s.id, s, Act(w.requests[s.id], w.entry, w.outbox, s).value);
      }
    } else {
      OutsiderKeepsSingleOwner(w, s);
    }
  }

  lemma {:induction false} OutsiderKeepsSingleOwner(w: World, s: Step)
    requires SingleOwner(w) && Allowed(s, PLAIN) && Next(w, s).Some? && !RequestOwned(s)
    ensures SingleOwner(Next(w, s).value)
  {
  }

  lemma {:induction false} SingleOwnerAlways(steps: seq<Step>)
    requires Run(steps, PLAIN).Some?
    ensures SingleOwner(Run(steps, PLAIN).value)
  {
    if steps != [] {
      SingleOwnerAlways(steps[..|steps| - 1]);
      SingleOwnerStep(Run(steps[..|steps| - 1], PLAIN).value, steps[|steps| - 1]);
    }
  }

  /**
   One identity, single path, no expiry: whatever the interleaving, retries, late callbacks and
   Redis failures, at most one publication is ever acknowledged; while the identity is absent,
   every publication so far failed or was never sent; and an `accepted` answer is never wrong.
   */
  lemma {:induction false} AtMostOneAcknowledgement(steps: seq<Step>)
    requires Run(steps, PLAIN).Some?
    ensures var w := Run(steps, PLAIN).value;
      && w.acks <= 1
      && (w.entry == None ==> forall id :: id in w.requests ==>
            w.requests[id].delivery == NotSent || w.requests[id].delivery == Failed)
      && (forall id :: id in w.requests && w.requests[id].main == Over(Custody) ==>
            w.requests[id].delivery == Acked && w.entry == Some(Entry(Accepted, w.requests[id].fp)))
  {
    SingleOwnerAlways(steps);
  }

  // ---------- what the calls settle ----------

  /** A call that takes the identity to accepted and reached it, by the owner or by late reconciliation. */
  predicate Remembers(s: Step) {
    (s.Remember? || s.LateRemember?) && s.reply != NotApplied
  }

  /** A call that frees the identity and reached it. */
  predicate Frees(s: Step) {
    (s.Release? || s.LateRelease?) && s.reply != NotApplied
  }

  lemma {:induction false} ScriptsOnOne(e: Entry, fp: Digest)
    ensures Transitioned(Some(e), fp, Accepted) == Some(if e.fp == fp then Entry(Accepted, fp) else e)
    ensures Transitioned(Some(e), fp, Uncertain) ==
      Some(if e.fp == fp && e.status == Pending then Entry(Uncertain, fp) else e)
    ensures Released(Some(e), fp) == if e.fp == fp && e.status != Accepted then None else Some(e)
  {
    match e.status
    case Pending => assert e == Entry(Pending, e.fp);
    case Uncertain => assert e == Entry(Uncertain, e.fp);
    case Accepted => assert e == Entry(Accepted, e.fp);
  }

  /**
   In every world: such a call leaves the identity accepted under the request's fingerprint, whatever its
   status was, exactly when it has that fingerprint, and changes nothing otherwise; a call that frees does so
   exactly when it has the fingerprint and is not accepted; one that marks changes nothing but pending.
   */
  lemma {:induction false} CallsTakeExactlyWhen(w: World, s: Step)
    requires RequestOwned(s) && Next(w, s).Some?
    ensures
      var e, fp := Next(w, s).value.entry, w.requests[s.id].fp;
      var own := w.entry.Some? && w.entry.value.fp == fp;
      && (Remembers(s) ==> e == if own then Some(Entry(Accepted, fp)) else w.entry)
      && (Frees(s) ==> e == if own && w.entry.value.status != Accepted then None else w.entry)
      && (s.MarkUncertain? && s.reply != NotApplied ==>
            e == if own && w.entry.value.status == Pending then Some(Entry(Uncertain, fp)) else w.entry)
  {
    NextIsApply(w, s);
    if w.entry.Some? {
      ScriptsOnOne(w.entry.value, w.requests[s.id].fp);
    }
  }

  /**
   In every world: a claim that reached an absent identity makes it pending for the request, whether or not its
   reply came; any other claim changes nothing. The request goes on as owner only on a reply, and raises without.
   */
  lemma {:induction false} ClaimTakesExactlyWhen(w: World, s: Step)
    requires s.ClaimIdentity? && Next(w, s).Some?
    ensures
      var w', r := Next(w, s).value, w.requests[s.id];
      var takes := w.entry == None && s.reply != NotApplied;
      && w'.entry == (if takes then Some(Entry(Pending, r.fp)) else w.entry)
      && (takes ==> w'.owner == Some(s.id)) && w'.outbox == w.outbox && w'.acks == w.acks
      && (w'.requests[s.id].main in {Storing, Publishing} <==> w.entry == None && s.reply == Answered)
      && (w'.requests[s.id].main == Storing ==> r.buffered) && (w'.requests[s.id].main == Publishing ==> !r.buffered)
      && (w'.requests[s.id].main == Over(Raised) <==> s.reply != Answered)
  {
    NextIsApply(w, s);
    VerdictByStatus(w.entry, w.requests[s.id].fp);
  }

  /** Likewise the envelope: it is in the outbox, or out of it, as soon as the call reached it, reply or not. */
  lemma {:induction false} EnvelopeMovesExactlyWhen(w: World, s: Step)
    requires (s.StoreEnvelope? || s.RemoveEnvelope?) && Next(w, s).Some?
    ensures
      var w', main := Next(w, s).value, Next(w, s).value.requests[s.id].main;
      && w'.outbox == (if s.reply == NotApplied then w.outbox
                       else if s.StoreEnvelope? then Some(w.requests[s.id].fp) else None)
      && main == (if s.reply != Answered then Over(Raised) else if s.StoreEnvelope? then Publishing else Finalizing)
      && w'.entry == w.entry && w'.acks == w.acks
  {
    NextIsApply(w, s);
  }

  /**
   How an owner goes on: it tries again to remember until a reply comes, answers custody when the identity is
   then accepted and marks it uncertain when not, and a release that is not answered raises.
   */
  lemma {:induction false} OwnerGoesOn(w: World, s: Step)
    requires (s.Remember? || s.MarkUncertain? || s.Release?) && Next(w, s).Some?
    ensures
      var w', r := Next(w, s).value, w.requests[s.id];
      var main := w'.requests[s.id].main;
      && (s.Remember? && s.reply != Answered ==> main == Finalizing)
      && (s.Remember? && s.reply == Answered ==>
            main == if w'.entry == Some(Entry(Accepted, r.fp)) then Over(Custody) else Marking)
      && (s.MarkUncertain? ==> main == Over(Unknown))
      && (s.Release? ==> main == Over(if s.reply == Answered then Refused else Raised))
      && w'.outbox == w.outbox && w'.acks == w.acks
  {
    NextIsApply(w, s);
  }

  /** Late reconciliation of a success may be repeated, and ends, at any time; that of a failure is done once. */
  lemma {:induction false} LateStepsArePossible(w: World, id: nat, reply: Reply)
    requires id in w.requests
    ensures Next(w, LateRemember(id, reply)).Some? <==> w.requests[id].late == Queued(true)
    ensures Next(w, LateEnds(id)).Some? <==> w.requests[id].late == Queued(true)
    ensures Next(w, LateRelease(id, reply)).Some? <==> w.requests[id].late == Queued(false)
    ensures Next(w, LateRemember(id, reply)).Some? ==> Next(w, LateRemember(id, reply)).value.requests == w.requests
    ensures Next(w, LateEnds(id)).Some? ==>
      var w' := Next(w, LateEnds(id)).value; w'.requests[id].late == Settled && w'.entry == w.entry
    ensures Next(w, LateRelease(id, reply)).Some? ==>
      Next(w, LateRelease(id, reply)).value.requests[id].late == Settled
  {
  }

  /**
   A pass of the worker takes what is in the outbox, sends it once, and empties the outbox only after an
   acknowledgement; it may give up at any time and leaves the envelope there.
   */
  lemma {:induction false} WorkerStepsArePossible(w: World, k: nat)
    ensures Next(w, FlushSend(k)).Some? <==> k !in w.flushes && w.outbox.Some?
    ensures Next(w, FlushSend(k)).Some? ==>
      Next(w, FlushSend(k)).value == w.(flushes := w.flushes[k := Sent(w.outbox.value)])
    ensures Next(w, FlushAck(k)).Some? <==> k in w.flushes && w.flushes[k].Sent?
    ensures Next(w, FlushAck(k)).Some? ==>
      var w' := Next(w, FlushAck(k)).value; w'.acks == w.acks + 1 && w'.outbox == w.outbox && w'.entry == w.entry
    ensures Next(w, FlushRemove(k)).Some? <==> k in w.flushes && w.flushes[k].Confirmed?
    ensures Next(w, FlushRemove(k)).Some? ==> Next(w, FlushRemove(k)).value.outbox == None
    ensures Next(w, FlushDrop(k)).Some? <==> k in w.flushes
    ensures Next(w, FlushDrop(k)).Some? ==> Next(w, FlushDrop(k)).value == w.(flushes := w.flushes - {k})
  {
  }

  /**
   In every plain run: a call that remembers, late or not, leaves the identity accepted under the request's
   fingerprint, and is answered custody if its reply came; a call that frees leaves the identity absent.
   */
  lemma {:induction false} CallsSettle(steps: seq<Step>)
    requires steps != [] && Run(steps, PLAIN).Some?
    requires Remembers(steps[|steps| - 1]) || Frees(steps[|steps| - 1])
    ensures
      var w, s := Run(steps, PLAIN).value, steps[|steps| - 1];
      && s.id in w.requests
      && w.entry == (if Remembers(s) then Some(Entry(Accepted, w.requests[s.id].fp)) else None)
      && (s.Remember? && s.reply == Answered ==> w.requests[s.id].main == Over(Custody))
  {
    var before, s := Run(steps[..|steps| - 1], PLAIN).value, steps[|steps| - 1];
    SingleOwnerAlways(steps[..|steps| - 1]);
    NextIsApply(before, s);
    assert before.owner == Some(s.id);
    CallsTakeExactlyWhen(before, s);
  }

  /** ... and what one of them remembered stays accepted for the rest of the run. */
  lemma {:induction false} RememberedForGood(steps: seq<Step>, k: nat)
    requires k < |steps| && Remembers(steps[k]) && Run(steps, PLAIN).Some?
    ensures
      var w := Run(steps, PLAIN).value;
      steps[k].id in w.requests && w.entry == Some(Entry(Accepted, w.requests[steps[k].id].fp))
  {
    var n := |steps| - 1;
    if k == n {
      CallsSettle(steps);
    } else {
      RememberedForGood(steps[..n], k);
      assert steps[..n][k] == steps[k];
      var before := Run(steps[..n], PLAIN).value;
      AcceptedStays(before, steps[n]);
      FingerprintStays(before, steps[n], steps[k].id);
    }
  }

  lemma {:induction false} FingerprintStays(w: World, s: Step, id: nat)
    requires id in w.requests && Next(w, s).Some?
    ensures id in Next(w, s).value.requests && Next(w, s).value.requests[id].fp == w.requests[id].fp
  {
    if RequestOwned(s) {
      NextIsApply(w, s);
    }
  }

  ghost predicate NeverTwice(c: Setting) {
    forall steps :: Run(steps, c).Some? ==> Run(steps, c).value.acks <= 1
  }

  /** Nothing weaker will do: each further exposure alone allows a second acknowledgement. */
  lemma {:induction false} NeverTwiceExactlyWhenPlain(c: Setting)
    ensures NeverTwice(c) <==> c == PLAIN
  {
    if c == PLAIN {
      forall steps | Run(steps, c).Some?
        ensures Run(steps, c).value.acks <= 1
      {
        AtMostOneAcknowledgement(steps);
      }
    } else if c.expiry {
      TwiceAfterExpiry(c);
    } else if c.batches {
      TwiceInBatches(c);
    } else {
      var fp :| fp in c.bufferedFps;
      TwiceThroughOutbox(c, fp);
    }
  }

  /** A run grows by one possible step; the witness runs below are built with it. */
  lemma {:induction false} Do(steps: seq<Step>, w: World, s: Step, c: Setting) returns (steps': seq<Step>, w': World)
    requires Run(steps, c) == Some(w) && Allowed(s, c) && Next(w, s).Some?
    ensures w' == Next(w, s).value && Run(steps', c) == Some(w')
  {
    steps', w' := steps + [s], Next(w, s).value;
    assert steps'[..|steps|] == steps;
  }

  /** A new request finds the identity absent, claims it and sends its payload. */
  lemma {:induction false} Produced(steps: seq<Step>, w: World, id: nat, fp: Digest, batched: bool, c: Setting)
    returns (t: seq<Step>, w': World)
    requires Run(steps, c) == Some(w) && w.entry == None && id !in w.requests && (batched ==> c.batches)
    ensures Run(t, c) == Some(w')
    ensures w' == w.(entry := Some(Entry(Pending, fp)), owner := Some(id),
                     requests := w.requests[id := Request(fp, false, batched, Waiting, InFlight, false, NoLate)])
  {
    t, w' := Do(steps, w, Arrive(id, fp, false, batched), c);
    t, w' := Do(t, w', ClaimIdentity(id, Answered), c);
    t, w' := Do(t, w', Produce(id), c);
  }

  /** ... and is acknowledged. */
  lemma {:induction false} Published(steps: seq<Step>, w: World, id: nat, fp: Digest, c: Setting)
    returns (t: seq<Step>, w': World)
    requires Run(steps, c) == Some(w) && w.entry == None && id !in w.requests
    ensures Run(t, c) == Some(w') && w'.acks == w.acks + 1
    ensures w'.entry == Some(Entry(Pending, fp))
    ensures w'.requests == w.requests[id := Request(fp, false, false, Waiting, Acked, false, NoLate)]
  {
    t, w' := Produced(steps, w, id, fp, false, c);
    t, w' := Do(t, w', Broker(id, true), c);
  }

  /** The claim lapses while its owner is still waiting; the retry publishes a second time. */
  lemma {:induction false} TwiceAfterExpiry(c: Setting)
    requires c.expiry
    ensures !NeverTwice(c)
  {
    var t, w := Published([], START, 0, 7, c);
    t, w := Do(t, w, Expire, c);
    t, w := Published(t, w, 1, 7, c);
    assert Run(t, c).value.acks == 2;
  }

  /**
   A batched owner releases twice: its late callback releases the identity, and the error the
   callback left in the returned list makes the owner release again, by then the retry's claim.
   */
  lemma {:induction false} TwiceInBatches(c: Setting)
    requires c.batches
    ensures !NeverTwice(c)
  {
    var t, w := LetGoTwice(7, c);
    t, w := Published(t, w, 1, 7, c);
    t, w := Do(t, w, Release(0, Answered), c);
    t, w := Published(t, w, 2, 7, c);
    assert Run(t, c).value.acks == 2;
  }

  /** The batched owner has released late and is about to release again. */
  lemma {:induction false} LetGoTwice(fp: Digest, c: Setting) returns (t: seq<Step>, w: World)
    requires c.batches
    ensures Run(t, c) == Some(w)
    ensures w == START.(requests := map[0 := Request(fp, false, true, Releasing, Failed, true, Settled)])
  {
    t, w := TimedOutAndFailed(fp, c);
    t, w := Do(t, w, DispatchLate(0), c);
    t, w := Do(t, w, OverwriteOutcome(0), c);
    assert w.requests[0] == Request(fp, false, true, Releasing, Failed, true, Queued(false));
    t, w := Do(t, w, LateRelease(0, Answered), c);
  }

  lemma {:induction false} TimedOutAndFailed(fp: Digest, c: Setting) returns (t: seq<Step>, w: World)
    requires c.batches
    ensures Run(t, c) == Some(w)
    ensures w == World(Some(Entry(Pending, fp)),
                       map[0 := Request(fp, false, true, Marking, Failed, true, NoLate)], None, map[], 0, {}, Some(0))
  {
    t, w := Produced([], START, 0, fp, true, c);
    t, w := Do(t, w, Timeout(0), c);
    t, w := Do(t, w, Broker(0, false), c);
  }

  /** A buffered request has claimed the absent identity. */
  lemma {:induction false} BufferedClaim(steps: seq<Step>, w: World, id: nat, fp: Digest, c: Setting)
    returns (t: seq<Step>, w': World)
    requires Run(steps, c) == Some(w) && w.entry == None && id !in w.requests && fp in c.bufferedFps
    ensures Run(t, c) == Some(w')
    ensures w' == w.(entry := Some(Entry(Pending, fp)), owner := Some(id),
                     requests := w.requests[id := Request(fp, true, false, Storing, NotSent, false, NoLate)])
  {
    t, w' := Do(steps, w, Arrive(id, fp, true, false), c);
    t, w' := Do(t, w', ClaimIdentity(id, Answered), c);
  }

  /** In buffer mode a timed-out publication stays in the outbox and is published again. */
  lemma {:induction false} TwiceThroughOutbox(c: Setting, fp: Digest)
    requires fp in c.bufferedFps
    ensures !NeverTwice(c)
  {
    var t, w := StoredAndAcknowledged(c, fp);
    t, w := Do(t, w, FlushSend(0), c);
    t, w := Do(t, w, FlushAck(0), c);
    assert Run(t, c).value.acks == 2;
  }

  lemma {:induction false} StoredAndAcknowledged(c: Setting, fp: Digest) returns (t: seq<Step>, w: World)
    requires fp in c.bufferedFps
    ensures Run(t, c) == Some(w) && w.outbox == Some(fp) && w.flushes == map[] && w.acks == 1
  {
    t, w := BufferedClaim([], START, 0, fp, c);
    t, w := Do(t, w, StoreEnvelope(0, Answered), c);
    t, w := Do(t, w, Produce(0), c);
    t, w := Do(t, w, Timeout(0), c);
    t, w := Do(t, w, Broker(0, true), c);
  }

  // ---------- accepted means acknowledged or held in the outbox ----------

  /** Is an accepted identity backed by an acknowledged or still stored payload of its fingerprint? */
  predicate Backed(w: World) {
    BackedBy(w.entry, w.acked, w.outbox)
  }

  predicate BackedBy(entry: Option<Entry>, acked: set<Digest>, outbox: Option<Digest>) {
    entry.Some? && entry.value.status == Accepted ==>
      entry.value.fp in acked || outbox == Some(entry.value.fp)
  }

  ghost predicate AlwaysBacked(c: Setting) {
    forall steps :: Run(steps, c).Some? ==> Backed(Run(steps, c).value)
  }

  /** Where a request already relies on its payload being acknowledged, or at least stored. */
  predicate CoveredBy(acked: set<Digest>, outbox: Option<Digest>, r: Request) {
    && (r.delivery == Acked || r.late == Queued(true) ==> r.fp in acked)
    && (!r.buffered ==> r.main != Storing && r.main != Removing)
    && (!r.buffered && r.main == Finalizing ==> r.fp in acked)
    && (r.buffered ==> r.late == NoLate && !r.timedOut)
    && (r.buffered && r.main == Removing ==> r.fp in acked)
    && (r.buffered && (r.main == Publishing || r.main == Waiting || r.main == Finalizing) ==>
          r.fp in acked || outbox == Some(r.fp))
  }

  predicate Covered(w: World, r: Request) {
    CoveredBy(w.acked, w.outbox, r)
  }

  ghost predicate SoleBuffered(w: World, c: Setting) {
    && Backed(w)
    && (forall id :: id in w.requests ==> Covered(w, w.requests[id]))
    && (forall id :: id in w.requests && w.requests[id].buffered ==> w.requests[id].fp in c.bufferedFps)
    && (w.outbox.Some? ==> w.outbox.value in c.bufferedFps)
    && (forall k :: k in w.flushes ==> w.flushes[k].fp in c.bufferedFps)
    && (forall k :: k in w.flushes && w.flushes[k].Confirmed? ==> w.flushes[k].fp in w.acked)
  }

  ghost predicate AtMostOne(s: set<Digest>) {
    forall x, y :: x in s && y in s ==> x == y
  }

  /** One request acting, seen with what is acknowledged and stored. */
  lemma {:induction false} CoveredActs(w: World, r: Request, s: Step)
    requires RequestOwned(s) && Backed(w) && Covered(w, r)
    requires r.buffered && w.outbox.Some? ==> w.outbox.value == r.fp
    ensures var act := Act(r, w.entry, w.outbox, s); act.Some? ==>
      && var x := act.value;
      && var acked := if x.acks then w.acked + {r.fp} else w.acked;
      && x.request.fp == r.fp && x.request.buffered == r.buffered
      && CoveredBy(acked, x.outbox, x.request) && BackedBy(x.entry, acked, x.outbox)
      && (x.outbox == w.outbox || (r.buffered && (x.outbox == None ==> r.fp in w.acked)
                                   && (x.outbox.Some? ==> x.outbox == Some(r.fp))))
  {
  }

  /** What covers a request survives another request's step on the same fingerprint's envelope. */
  lemma {:induction false} CoveredStays(
    acked: set<Digest>, outbox: Option<Digest>, acked': set<Digest>, outbox': Option<Digest>, r: Request)
    requires CoveredBy(acked, outbox, r) && acked <= acked'
    requires outbox' == outbox || (r.buffered ==> r.fp in acked' || outbox' == Some(r.fp))
    ensures CoveredBy(acked', outbox', r)
  {
  }

  /** The worker's steps on the envelope it took. */
  predicate WorkerStep(s: Step) {
    s.FlushSend? || s.FlushAck? || s.FlushRemove? || s.FlushDrop?
  }

  lemma {:induction false} SoleBufferedWorkerStep(w: World, s: Step, c: Setting)
    requires SoleBuffered(w, c) && AtMostOne(c.bufferedFps) && Next(w, s).Some? && WorkerStep(s)
    ensures SoleBuffered(Next(w, s).value, c)
  {
    var w' := Next(w, s).value;
    assert w'.requests == w.requests && w'.entry == w.entry && w.acked <= w'.acked;
    forall id | id in w.requests
      ensures Covered(w', w.requests[id])
    {
      CoveredStays(w.acked, w.outbox, w'.acked, w'.outbox, w.requests[id]);
    }
  }

  lemma {:induction false} SoleBufferedArrival(w: World, s: Step, c: Setting)
    requires SoleBuffered(w, c) && Allowed(s, c) && Next(w, s).Some? && (s.Arrive? || s.Expire?)
    ensures SoleBuffered(Next(w, s).value, c)
  {
  }

  /** The world after an act, as far as one request is concerned. */
  lemma {:induction false} CoveredAfterAct(w: World, s: Step, c: Setting, id: nat)
    requires SoleBuffered(w, c) && AtMostOne(c.bufferedFps) && Next(w, s).Some? && RequestOwned(s) && id in w.requests
    ensures Covered(Next(w, s).value, Next(w, s).value.requests[id])
  {
    var r, w' := w.requests[s.id], Next(w, s).value;
    CoveredActs(w, r, s);
    var x := Act(r, w.entry, w.outbox, s).value;
    assert w' == Apply(w, s.id, x);
    if id != s.id {
      CoveredStays(w.acked, w.outbox, w'.acked, w'.outbox, w.requests[id]);
    }
  }

  lemma {:induction false} SoleBufferedActs(w: World, s: Step, c: Setting)
    requires SoleBuffered(w, c) && AtMostOne(c.bufferedFps) && Next(w, s).Some? && RequestOwned(s)
    ensures SoleBuffered(Next(w, s).value, c)
  {
    var r, w' := w.requests[s.id], Next(w, s).value;
    forall id | id in w'.requests
      ensures Covered(w', w'.requests[id])
    {
      CoveredAfterAct(w, s, c, id);
    }
    CoveredActs(w, r, s);
    assert w' == Apply(w, s.id, Act(r, w.entry, w.outbox, s).value);
  }

  lemma {:induction false} SoleBufferedStep(w: World, s: Step, c: Setting)
    requires SoleBuffered(w, c) && AtMostOne(c.bufferedFps) && Allowed(s, c) && Next(w, s).Some?
    ensures SoleBuffered(Next(w, s).value, c)
  {
    if WorkerStep(s) {
      SoleBufferedWorkerStep(w, s, c);
    } else if s.Arrive? || s.Expire? {
      SoleBufferedArrival(w, s, c);
    } else {
      SoleBufferedActs(w, s, c);
    }
  }

  lemma {:induction false} SoleBufferedAlways(steps: seq<Step>, c: Setting)
    requires AtMostOne(c.bufferedFps) && Run(steps, c).Some?
    ensures SoleBuffered(Run(steps, c).value, c)
  {
    if steps != [] {
      SoleBufferedAlways(steps[..|steps| - 1], c);
      SoleBufferedStep(Run(steps[..|steps| - 1], c).value, steps[|steps| - 1], c);
    }
  }

  // ---------- without expiry and batches ----------

  /** A request without the claim: it can neither publish, store nor release. */
  predicate Resting(r: Request) {
    if !r.buffered then Idle(r)
    else
      && (r.main == Fresh || (r.main.Over? && r.main.answer != Custody))
      && r.delivery == NotSent && !r.timedOut && r.late == NoLate
  }

  /** A buffered request with the claim: it never gives it up, and its payload is where it relies on it. */
  predicate BufferedOwner(r: Request, acked: set<Digest>, outbox: Option<Digest>) {
    && r.buffered && r.main != Fresh && r.main != Releasing
    && CoveredBy(acked, outbox, r) && (outbox == None || outbox == Some(r.fp))
  }

  /** Only a buffered owner uses the outbox, under its own fingerprint. */
  ghost predicate OwnOutbox(w: World, r: Request)
    requires w.entry.Some?
  {
    if r.buffered then
      && BufferedOwner(r, w.acked, w.outbox)
      && (forall k :: k in w.flushes ==> w.flushes[k].fp == r.fp && (w.flushes[k].Confirmed? ==> r.fp in w.acked))
    else
      && OwnerConsistent(r, w.entry.value.status) && (r.delivery == Acked ==> r.fp in w.acked)
      && w.outbox == None && w.flushes == map[]
  }

  /** What every step keeps when claims neither expire nor are released by a batch. */
  ghost predicate Steady(w: World) {
    && Backed(w) && (w.owner == None <==> w.entry == None)
    && (forall id :: id in w.requests ==> !w.requests[id].batched)
    && (forall id :: id in w.requests && w.owner != Some(id) ==> Resting(w.requests[id]))
    && (w.owner == None ==> w.outbox == None && w.flushes == map[])
    && (w.owner.Some? ==>
          && w.owner.value in w.requests && w.entry.Some? && w.entry.value.fp == w.requests[w.owner.value].fp
          && OwnOutbox(w, w.requests[w.owner.value]))
  }

  lemma {:induction false} RestingActs(r: Request, e: Option<Entry>, outbox: Option<Digest>, s: Step)
    requires RequestOwned(s) && !r.batched && Resting(r)
    ensures var act := Act(r, e, outbox, s); act.Some? ==>
      && var x := act.value;
      && !x.acks && x.outbox == outbox && x.request.fp == r.fp && x.request.buffered == r.buffered && !x.request.batched
      && (if x.claims then
            && e == None && x.entry == Some(Entry(Pending, r.fp)) && x.request.delivery == NotSent
            && (if r.buffered then
                  && (x.request.main == Storing || x.request.main == Over(Raised))
                  && x.request.late == NoLate && !x.request.timedOut
                else OwnerConsistent(x.request, Pending))
          else
            Resting(x.request) && (e == None <==> x.entry == None)
            && (e.Some? ==> x.entry.value.fp == e.value.fp
                            && (x.entry.value.status == Accepted <==> e.value.status == Accepted)))
  {
  }

  lemma {:induction false} BufferedOwnerActs(r: Request, e: Entry, acked: set<Digest>, outbox: Option<Digest>, s: Step)
    requires RequestOwned(s) && !r.batched && e.fp == r.fp
    requires BufferedOwner(r, acked, outbox) && BackedBy(Some(e), acked, outbox)
    ensures var act := Act(r, Some(e), outbox, s); act.Some? ==>
      && var x := act.value;
      && var acked' := if x.acks then acked + {r.fp} else acked;
      && !x.claims && x.request.fp == r.fp && !x.request.batched && BufferedOwner(x.request, acked', x.outbox)
      && x.entry.Some? && x.entry.value.fp == r.fp && BackedBy(x.entry, acked', x.outbox)
  {
  }

  lemma {:induction false} SteadyByBufferedOwner(w: World, id: nat, s: Step, x: Effect)
    requires Steady(w) && RequestOwned(s) && w.owner == Some(id) && w.requests[id].buffered
    requires Act(w.requests[id], w.entry, w.outbox, s) == Some(x)
    ensures Steady(Apply(w, id, x))
  {
    BufferedOwnerActs(w.requests[id], w.entry.value, w.acked, w.outbox, s);
  }

  lemma {:induction false} SteadyByPlainOwner(w: World, id: nat, s: Step, x: Effect)
    requires Steady(w) && RequestOwned(s) && w.owner == Some(id) && !w.requests[id].buffered
    requires Act(w.requests[id], w.entry, w.outbox, s) == Some(x)
    ensures Steady(Apply(w, id, x))
  {
    OwnerActs(w.requests[id], w.entry.value, s);
  }

  lemma {:induction false} SteadyByResting(w: World, id: nat, s: Step, x: Effect)
    requires Steady(w) && RequestOwned(s) && w.owner != Some(id) && id in w.requests
    requires Act(w.requests[id], w.entry, w.outbox, s) == Some(x)
    ensures Steady(Apply(w, id, x))
  {
    RestingActs(w.requests[id], w.entry, w.outbox, s);
  }

  lemma {:induction false} OutsiderKeepsSteady(w: World, s: Step, c: Setting)
    requires Steady(w) && !c.expiry && !c.batches && Allowed(s, c) && Next(w, s).Some? && !RequestOwned(s)
    ensures Steady(Next(w, s).value)
  {
    if w.owner.Some? && w.requests[w.owner.value].buffered {
      var w' := Next(w, s).value;
      CoveredStays(w.acked, w.outbox, w'.acked, w'.outbox, w.requests[w.owner.value]);
    }
  }

  lemma {:induction false} SteadyStep(w: World, s: Step, c: Setting)
    requires Steady(w) && !c.expiry && !c.batches && Allowed(s, c) && Next(w, s).Some?
    ensures Steady(Next(w, s).value)
  {
    if RequestOwned(s) {
      NextIsApply(w, s);
      var x := Act(w.requests[s.id], w.entry, w.outbox, s).value;
      if w.owner != Some(s.id) {
        SteadyByResting(w, s.id, s, x);
      } else if w.requests[s.id].buffered {
        SteadyByBufferedOwner(w, s.id, s, x);
      } else {
        SteadyByPlainOwner(w, s.id, s, x);
      }
    } else {
      OutsiderKeepsSteady(w, s, c);
    }
  }

  /** Any number of payloads may be buffered as long as no claim ends under its owner. */
  lemma {:induction false} SteadyAlways(steps: seq<Step>, c: Setting)
    requires !c.expiry && !c.batches && Run(steps, c).Some?
    ensures Steady(Run(steps, c).value)
  {
    if steps != [] {
      SteadyAlways(steps[..|steps| - 1], c);
      SteadyStep(Run(steps[..|steps| - 1], c).value, steps[|steps| - 1], c);
    }
  }

  // ---------- exactly when accepted is backed ----------

  /**
   With Redis failures, retries and the outbox: an accepted identity is always backed by an acknowledged
   or stored payload if and only if the identity is buffered under at most one fingerprint, or neither
   expires nor is batched. The Gateway derives the event id from a fresh reservation id.
   */
  lemma {:induction false} AcceptedIsBackedExactlyWhen(c: Setting)
    ensures AlwaysBacked(c) <==> AtMostOne(c.bufferedFps) || (!c.expiry && !c.batches)
  {
    if AtMostOne(c.bufferedFps) || (!c.expiry && !c.batches) {
      forall steps | Run(steps, c).Some?
        ensures Backed(Run(steps, c).value)
      {
        if AtMostOne(c.bufferedFps) {
          SoleBufferedAlways(steps, c);
        } else {
          SteadyAlways(steps, c);
        }
      }
    } else {
      var f, g :| f in c.bufferedFps && g in c.bufferedFps && f != g;
      if c.expiry {
        OverwrittenEnvelope(c, f, g);
      } else {
        OverwrittenInBatches(c, f, g);
      }
    }
  }

  /** A buffered request publishes nothing, and is accepted because its envelope is stored. */
  lemma {:induction false} AcceptedUnsent(steps: seq<Step>, w: World, id: nat, f: Digest, c: Setting)
    returns (t: seq<Step>, w': World)
    requires Run(steps, c) == Some(w) && w.entry == None && id !in w.requests && f in c.bufferedFps
    ensures Run(t, c) == Some(w')
    ensures w' == w.(entry := Some(Entry(Accepted, f)), owner := Some(id), outbox := Some(f),
                     requests := w.requests[id := Request(f, true, false, Over(Custody), NotSent, false, NoLate)])
  {
    t, w' := StoredUnsent(steps, w, id, f, c);
    t, w' := Do(t, w', Remember(id, Answered), c);
  }

  lemma {:induction false} StoredUnsent(steps: seq<Step>, w: World, id: nat, f: Digest, c: Setting)
    returns (t: seq<Step>, w': World)
    requires Run(steps, c) == Some(w) && w.entry == None && id !in w.requests && f in c.bufferedFps
    ensures Run(t, c) == Some(w')
    ensures w' == w.(entry := Some(Entry(Pending, f)), owner := Some(id), outbox := Some(f),
                     requests := w.requests[id := Request(f, true, false, Finalizing, NotSent, false, NoLate)])
  {
    t, w' := BufferedClaim(steps, w, id, f, c);
    t, w' := Do(t, w', StoreEnvelope(id, Answered), c);
    t, w' := Do(t, w', ProduceRaises(id, false), c);
  }

  /** The second release of a batched owner takes the claim of a buffered request that has yet to store. */
  lemma {:induction false} ClaimTakenBeforeStoring(g: Digest, c: Setting) returns (t: seq<Step>, w: World)
    requires c.batches && g in c.bufferedFps
    ensures Run(t, c) == Some(w) && w.entry == None && w.acked == {} && 2 !in w.requests
    ensures 1 in w.requests && w.requests[1] == Request(g, true, false, Storing, NotSent, false, NoLate)
  {
    t, w := LetGoTwice(g, c);
    t, w := BufferedClaim(t, w, 1, g, c);
    t, w := Do(t, w, Release(0, Answered), c);
  }

  /** Without expiry, a batch does it: the late envelope of `g` replaces the one `f` relies on. */
  lemma {:induction false} OverwrittenInBatches(c: Setting, f: Digest, g: Digest)
    requires c.batches && f in c.bufferedFps && g in c.bufferedFps && f != g
    ensures !AlwaysBacked(c)
  {
    var t, w := ClaimTakenBeforeStoring(g, c);
    t, w := AcceptedUnsent(t, w, 2, f, c);
    t, w := Do(t, w, StoreEnvelope(1, Answered), c);
    assert !Backed(Run(t, c).value);
  }

  /**
   A slow request whose claim lapsed stores its envelope over the one the accepted identity
   relies on: the accepted payload is then neither acknowledged nor stored.
   */
  lemma {:induction false} OverwrittenEnvelope(c: Setting, f: Digest, g: Digest)
    requires c.expiry && f in c.bufferedFps && g in c.bufferedFps && f != g
    ensures !AlwaysBacked(c)
  {
    var t, w := AcceptedByOutbox(c, f, g);
    t, w := Do(t, w, StoreEnvelope(0, Answered), c);
    assert !Backed(Run(t, c).value);
  }

  /** `f` is accepted on the strength of its stored envelope while a lapsed owner still means to store `g`. */
  lemma {:induction false} AcceptedByOutbox(c: Setting, f: Digest, g: Digest) returns (t: seq<Step>, w: World)
    requires c.expiry && f in c.bufferedFps && g in c.bufferedFps
    ensures Run(t, c) == Some(w) && w.entry == Some(Entry(Accepted, f)) && w.acked == {}
    ensures 0 in w.requests && w.requests[0] == Request(g, true, false, Storing, NotSent, false, NoLate)
  {
    t, w := BufferedClaim([], START, 0, g, c);
    t, w := Do(t, w, Expire, c);
    t, w := AcceptedUnsent(t, w, 1, f, c);
  }
}

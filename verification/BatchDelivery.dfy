/** KafkaProducerDispatcher.publish_batch_and_wait (api/ingestion.py), access by access. */
module BatchDelivery {
  import opened Prelude

  // One thread sends a list of messages and then waits for each in turn until a common deadline, while
  // delivery callbacks run on the polling thread. Each step is one access to what the threads share; any
  // number of batches interleave.

  datatype Broker = Silent | Acked | Refused

  /** outcomes[index]: None, CustodyOverloadedError, KafkaUnavailableError, and the uncertain one. */
  datatype Cell = Clear | Overloaded | Unavailable | Uncertain

  datatype Waiter =
    | Producing                       // has a slot, about to call produce
    | InLine                          // sent, or given up with its outcome written; not waited for yet
    | Blocking                        // in event.wait(remaining)
    | Late                            // the wait is over without it; about to set timed_out
    | Marked                          // about to read delivered
    | Choosing(race: bool)            // about to read the outcome
    | Writing(race: bool, ok: bool)   // about to write the uncertain outcome
    | Written(race: bool, ok: bool)   // about to dispatch if it was delivered meanwhile
    | Locking(ok: bool)
    | Submitting(ok: bool)
    | Done

  datatype Callback =
    Unarmed | Armed | Recording | Signalling | Releasing | Testing | CbLocking | CbSubmitting | Finished

  /** `overwrote`: bookkeeping, whether an error was recorded over the uncertain outcome. */
  datatype Message = Message(
    reconciles: bool, waiter: Waiter, callback: Callback, broker: Broker, cell: Cell, delivered: bool,
    timedOut: bool, dispatched: bool, submitted: seq<bool>, acquired: nat, released: nat, overwrote: bool)

  /** How many messages are sent, which one is waited for, and whether the deadline has passed. */
  datatype Batch = Batch(size: nat, sent: nat, turn: nat, expired: bool)

  datatype World = World(limit: nat, inUse: int, batches: map<nat, Batch>, messages: map<(nat, nat), Message>)

  datatype Step =
    | Begin(batch: nat, size: nat)
    | Acquire(batch: nat, index: nat, reconciles: bool)
    | Produce(batch: nat, index: nat, raised: Option<Cell>)
    | Deadline(batch: nat)
    | Report(batch: nat, index: nat, ok: bool)
    | WaiterMoves(batch: nat, index: nat, woken: bool)   // woken: event.wait saw the event
    | CallbackMoves(batch: nat, index: nat)

  /** A message that got a slot, and one that found none and is given up. */
  function WithSlot(reconciles: bool): Message {
    Message(reconciles, Producing, Unarmed, Silent, Clear, false, false, false, [], 1, 0, false)
  }

  function WithoutSlot(reconciles: bool): Message {
    Message(reconciles, InLine, Unarmed, Silent, Overloaded, true, false, false, [], 0, 0, false)
  }

  function ProduceAct(m: Message, raised: Option<Cell>): Option<Message> {
    if m.waiter != Producing then None
    else
      match raised
      case None => Some(m.(waiter := InLine, callback := Armed))
      case Some(cell) =>
        if cell == Overloaded || cell == Unavailable
        then Some(m.(waiter := InLine, released := m.released + 1, cell := cell, delivered := true))
        else None
  }

  /** One step of the deadline loop on its message. */
  function WaiterAct(m: Message, expired: bool, woken: bool): Option<Message> {
    match m.waiter
    case InLine => Some(m.(waiter := if expired then Late else Blocking))
    case Blocking =>
      if woken then (if m.delivered then Some(m.(waiter := Done)) else None)
      else if expired then Some(m.(waiter := Late))
      else None
    case Late => Some(m.(waiter := Marked, timedOut := true))
    case Marked => Some(m.(waiter := Choosing(m.delivered)))
    case Choosing(race) => Some(m.(waiter := Writing(race, m.cell == Clear)))
    case Writing(race, ok) => Some(m.(waiter := Written(race, ok), cell := Uncertain))
    case Written(race, ok) => Some(m.(waiter := if race && m.reconciles then Locking(ok) else Done))
    case Locking(ok) =>
      if m.dispatched then Some(m.(waiter := Done)) else Some(m.(waiter := Submitting(ok), dispatched := true))
    case Submitting(ok) => Some(m.(waiter := Done, submitted := m.submitted + [ok]))
    case _ => None
  }

  function CallbackAct(m: Message): Option<Message> {
    match m.callback
    case Recording =>
      if m.broker != Refused then Some(m.(callback := Signalling))
      else Some(m.(callback := Signalling, cell := Unavailable, overwrote := m.cell == Uncertain))
    case Signalling => Some(m.(callback := Releasing, delivered := true))
    case Releasing => Some(m.(callback := Testing, released := m.released + 1))
    case Testing => Some(m.(callback := if m.timedOut && m.reconciles then CbLocking else Finished))
    case CbLocking =>
      if m.dispatched then Some(m.(callback := Finished))
      else Some(m.(callback := CbSubmitting, dispatched := true))
    case CbSubmitting => Some(m.(callback := Finished, submitted := m.submitted + [m.broker == Acked]))
    case _ => None
  }

  /** What a step makes of an existing message. */
  function Act(m: Message, expired: bool, s: Step): Option<Message> {
    match s
    case Produce(_, _, raised) => ProduceAct(m, raised)
    case Report(_, _, ok) =>
      if m.callback != Armed then None else Some(m.(callback := Recording, broker := if ok then Acked else Refused))
    case WaiterMoves(_, _, woken) => WaiterAct(m, expired, woken)
    case CallbackMoves(_, _) => CallbackAct(m)
    case _ => None
  }

  predicate OnMessage(s: Step) {
    s.Produce? || s.Report? || s.WaiterMoves? || s.CallbackMoves?
  }

  /** The sending thread works through its list in order, then through its waits in order. */
  predicate InTurn(b: Batch, s: Step)
    requires OnMessage(s)
  {
    match s
    case Produce(_, i, _) => i == b.sent
    case WaiterMoves(_, i, _) => b.sent == b.size && i == b.turn
    case _ => true
  }

  function Advance(b: Batch, s: Step, m: Message): Batch
    requires OnMessage(s)
  {
    if s.Produce? then b.(sent := b.sent + 1)
    else if s.WaiterMoves? && m.waiter == Done then b.(turn := b.turn + 1)
    else b
  }

  function Next(w: World, s: Step): Option<World> {
    match s
    case Begin(k, size) =>
      if k in w.batches then None else Some(w.(batches := w.batches[k := Batch(size, 0, 0, false)]))
    case Deadline(k) =>
      if k !in w.batches || w.batches[k].sent != w.batches[k].size then None
      else Some(w.(batches := w.batches[k := w.batches[k].(expired := true)]))
    case Acquire(k, i, reconciles) =>
      if k !in w.batches || i != w.batches[k].sent || i >= w.batches[k].size || (k, i) in w.messages then None
      else if w.inUse >= w.limit then
        Some(w.(messages := w.messages[(k, i) := WithoutSlot(reconciles)],
                batches := w.batches[k := w.batches[k].(sent := i + 1)]))
      else Some(w.(inUse := w.inUse + 1, messages := w.messages[(k, i) := WithSlot(reconciles)]))
    case _ =>
      if s.batch !in w.batches || (s.batch, s.index) !in w.messages || !InTurn(w.batches[s.batch], s) then None
      else
        var act := Act(w.messages[(s.batch, s.index)], w.batches[s.batch].expired, s);
        if act == None then None else Some(WithMessage(w, s, act.value))
  }

  function WithMessage(w: World, s: Step, n: Message): World
    requires OnMessage(s) && s.batch in w.batches && (s.batch, s.index) in w.messages
  {
    World(w.limit, w.inUse - (n.released - w.messages[(s.batch, s.index)].released),
          w.batches[s.batch := Advance(w.batches[s.batch], s, n)], w.messages[(s.batch, s.index) := n])
  }

  function Run(limit: nat, steps: seq<Step>): Option<World> {
    if steps == [] then Some(World(limit, 0, map[], map[]))
    else
      var before := Run(limit, steps[..|steps| - 1]);
      if before == None then None else Next(before.value, steps[|steps| - 1])
  }

  // ---------- what one message keeps ----------

  predicate Failing(c: Cell) {
    c == Overloaded || c == Unavailable
  }

  predicate WaiterInDispatch(m: Message) {
    m.waiter.Locking? || m.waiter.Submitting?
  }

  predicate CallbackInDispatch(m: Message) {
    m.callback == CbLocking || m.callback == CbSubmitting
  }

  /** The uncertain outcome was written. */
  predicate HasWritten(m: Message) {
    m.timedOut && m.waiter != Marked && !m.waiter.Choosing? && !m.waiter.Writing?
  }

  /** How far the callback is decides what was delivered; an unsent message is delivered once given up. */
  predicate CallbackFacts(m: Message) {
    && (m.broker != Silent <==> m.callback != Unarmed && m.callback != Armed)
    && (m.callback != Unarmed ==>
          (m.delivered <==> m.broker != Silent && m.callback != Recording && m.callback != Signalling))
    && (m.callback == Unarmed ==> (m.delivered <==> m.waiter != Producing))
    && (m.waiter == Producing ==> m.callback == Unarmed)
  }

  /** The outcome cell: the callback's error, an unsent message's failure, or what overwrote them. */
  predicate CellFacts(m: Message) {
    && (HasWritten(m) ==> m.cell == if m.overwrote then Unavailable else Uncertain)
    && (!HasWritten(m) && m.callback != Unarmed ==>
          m.cell == if m.broker == Refused && m.callback != Recording then Unavailable else Clear)
    && (!HasWritten(m) && m.callback == Unarmed ==> if m.waiter == Producing then m.cell == Clear else Failing(m.cell))
    && (m.overwrote ==> HasWritten(m) && m.broker == Refused && m.callback != Recording)
    && (m.acquired == 0 && !HasWritten(m) ==> m.cell == Overloaded)
  }

  /** What the waiter carries is true, if it is going to dispatch at all. */
  predicate WaiterFacts(m: Message) {
    && (m.waiter == Producing || m.waiter == InLine || m.waiter == Blocking || m.waiter == Late ==> !m.timedOut)
    && (m.waiter == Marked || m.waiter.Choosing? || m.waiter.Writing? || m.waiter.Written? || WaiterInDispatch(m) ==>
          m.timedOut)
    && (m.waiter.Choosing? && m.waiter.race ==> m.delivered)
    && (m.waiter.Writing? && m.waiter.race ==> m.delivered && m.waiter.ok == (m.broker == Acked))
    && (m.waiter.Written? && m.waiter.race ==> m.delivered && m.waiter.ok == (m.broker == Acked))
    && (WaiterInDispatch(m) ==> m.delivered && m.reconciles && m.waiter.ok == (m.broker == Acked))
    && (m.waiter == Done && !m.timedOut ==> m.delivered)
  }

  /** The waiter read that the message was delivered, or is about to read it. */
  predicate WaiterWillDispatch(m: Message) {
    || m.waiter == Marked || m.waiter.Locking?
    || (m.waiter.Choosing? && m.waiter.race)
    || (m.waiter.Writing? && m.waiter.race)
    || (m.waiter.Written? && m.waiter.race)
  }

  /** The flag admits one thread, what is submitted is the truth, and the last of the two sees the other. */
  predicate DispatchFacts(m: Message) {
    && (CallbackInDispatch(m) ==> m.timedOut && m.reconciles)
    && (m.dispatched ==> m.timedOut && m.reconciles && m.delivered)
    && !(m.waiter.Submitting? && m.callback == CbSubmitting)
    && (m.waiter.Submitting? || m.callback == CbSubmitting ==> m.dispatched)
    && (m.submitted == if m.dispatched && !m.waiter.Submitting? && m.callback != CbSubmitting
                       then [m.broker == Acked] else [])
    && (m.reconciles && m.timedOut && !m.dispatched ==>
          WaiterWillDispatch(m) || (m.callback != Finished && m.callback != Unarmed))
  }

  /** A slot is held from its acquisition to the callback's release, or to a produce that raised. */
  predicate SlotFacts(m: Message) {
    && m.acquired <= 1
    && (m.acquired == 0 ==> m.callback == Unarmed && m.waiter != Producing)
    && m.released == (if m.callback == Testing || CallbackInDispatch(m) || m.callback == Finished
                         || (m.callback == Unarmed && m.waiter != Producing && m.acquired == 1) then 1 else 0)
    && m.released <= m.acquired
  }

  predicate Sound(m: Message) {
    CallbackFacts(m) && CellFacts(m) && WaiterFacts(m) && DispatchFacts(m) && SlotFacts(m)
  }

  lemma {:induction false} ProduceKeepsSound(m: Message, raised: Option<Cell>)
    requires Sound(m) && ProduceAct(m, raised).Some?
    ensures Sound(ProduceAct(m, raised).value)
  {
  }

  lemma {:induction false} WaiterTimesOut(m: Message, expired: bool, woken: bool)
    requires Sound(m) && WaiterAct(m, expired, woken).Some?
    requires m.waiter == InLine || m.waiter == Blocking || m.waiter == Late
    ensures Sound(WaiterAct(m, expired, woken).value)
  {
  }

  lemma {:induction false} WaiterReads(m: Message, expired: bool, woken: bool)
    requires Sound(m) && WaiterAct(m, expired, woken).Some?
    requires m.waiter == Marked || m.waiter.Choosing? || m.waiter.Written?
    ensures Sound(WaiterAct(m, expired, woken).value)
  {
  }

  lemma {:induction false} WaiterWrites(m: Message, expired: bool, woken: bool)
    requires Sound(m) && WaiterAct(m, expired, woken).Some? && m.waiter.Writing?
    ensures Sound(WaiterAct(m, expired, woken).value)
  {
  }

  lemma {:induction false} WaiterDispatches(m: Message, expired: bool, woken: bool)
    requires Sound(m) && WaiterAct(m, expired, woken).Some? && WaiterInDispatch(m)
    ensures Sound(WaiterAct(m, expired, woken).value)
  {
  }

  lemma {:induction false} CallbackDelivers(m: Message)
    requires Sound(m) && CallbackAct(m).Some? && (m.callback == Recording || m.callback == Signalling)
    ensures Sound(CallbackAct(m).value)
  {
  }

  lemma {:induction false} CallbackDispatches(m: Message)
    requires Sound(m) && CallbackAct(m).Some? && m.callback != Recording && m.callback != Signalling
    ensures Sound(CallbackAct(m).value)
  {
  }

  lemma {:induction false} WaiterKeepsSound(m: Message, expired: bool, woken: bool)
    requires Sound(m) && WaiterAct(m, expired, woken).Some?
    ensures Sound(WaiterAct(m, expired, woken).value)
  {
    match m.waiter
    case InLine => WaiterTimesOut(m, expired, woken);
    case Blocking => WaiterTimesOut(m, expired, woken);
    case Late => WaiterTimesOut(m, expired, woken);
    case Writing(_, _) => WaiterWrites(m, expired, woken);
    case Locking(_) => WaiterDispatches(m, expired, woken);
    case Submitting(_) => WaiterDispatches(m, expired, woken);
    case _ => WaiterReads(m, expired, woken);
  }

  lemma {:induction false} SoundStep(m: Message, expired: bool, s: Step)
    requires Sound(m) && Act(m, expired, s).Some?
    ensures Sound(Act(m, expired, s).value)
  {
    match s
    case Produce(_, _, raised) => ProduceKeepsSound(m, raised);
    case WaiterMoves(_, _, woken) => WaiterKeepsSound(m, expired, woken);
    case CallbackMoves(_, _) =>
      if m.callback == Recording || m.callback == Signalling {
        CallbackDelivers(m);
      } else {
        CallbackDispatches(m);
      }
    case _ =>
  }

  predicate KeepsItsSlot(m: Message, n: Message) {
    n.acquired == m.acquired && n.reconciles == m.reconciles && m.released <= n.released
  }

  lemma {:induction false} WaiterKeepsTheSlot(m: Message, expired: bool, woken: bool)
    requires WaiterAct(m, expired, woken).Some?
    ensures var n := WaiterAct(m, expired, woken).value; KeepsItsSlot(m, n) && n.released == m.released
  {
  }

  lemma {:induction false} SlotsOnlyGrow(m: Message, expired: bool, s: Step)
    requires Act(m, expired, s).Some?
    ensures KeepsItsSlot(m, Act(m, expired, s).value)
  {
    match s
    case WaiterMoves(_, _, woken) => WaiterKeepsTheSlot(m, expired, woken);
    case _ =>
  }

  // ---------- slots and turns ----------

  ghost function Holders(ms: map<(nat, nat), Message>): set<(nat, nat)> {
    set id | id in ms && ms[id].acquired > ms[id].released
  }

  lemma {:induction false} CountWith(s: set<(nat, nat)>, id: (nat, nat))
    ensures |s| == |s - {id}| + if id in s then 1 else 0
  {
    if id in s {
      assert s == (s - {id}) + {id};
    } else {
      assert s == s - {id};
    }
  }

  lemma {:induction false} HoldersAfter(ms: map<(nat, nat), Message>, id: (nat, nat), m: Message)
    ensures |Holders(ms[id := m])| - |Holders(ms)| ==
      (if m.acquired > m.released then 1 else 0) - (if id in Holders(ms) then 1 else 0)
  {
    CountWith(Holders(ms), id);
    CountWith(Holders(ms[id := m]), id);
    assert Holders(ms[id := m]) - {id} == Holders(ms) - {id};
  }

  /** Where a message of a batch may be: the sent ones in line, those waited for done, in that order. */
  predicate Placed(b: Batch, i: nat, m: Message) {
    && i <= b.sent && i < b.size
    && (m.waiter == Producing <==> i == b.sent)
    && (m.waiter == Done <==> i < b.turn)
    && (i > b.turn ==> m.waiter == Producing || m.waiter == InLine)
    && (m.timedOut || m.waiter == Late ==> b.expired)
  }

  /** After a message timed out, the deadline has passed for the one in turn. */
  predicate AfterTheDeadline(m: Message, later: Message) {
    m.timedOut ==> later.waiter != Blocking && (later.waiter == Done ==> later.timedOut)
  }

  ghost predicate Ordered(w: World) {
    && (forall k, i :: (k, i) in w.messages ==> k in w.batches && Placed(w.batches[k], i, w.messages[(k, i)]))
    && (forall k, i, j :: (k, i) in w.messages && (k, j) in w.messages && i < j ==>
          AfterTheDeadline(w.messages[(k, i)], w.messages[(k, j)]))
    && (forall k :: k in w.batches ==> w.batches[k].turn <= w.batches[k].sent <= w.batches[k].size)
  }

  ghost predicate WorldSound(w: World) {
    && (forall id :: id in w.messages ==> Sound(w.messages[id]))
    && w.inUse == |Holders(w.messages)| <= w.limit
  }

  lemma {:induction false} SoundOnMessage(w: World, s: Step)
    requires WorldSound(w) && OnMessage(s) && Next(w, s).Some?
    ensures WorldSound(Next(w, s).value)
  {
    var id, expired := (s.batch, s.index), w.batches[s.batch].expired;
    var m := w.messages[id];
    var n := Act(m, expired, s).value;
    SoundStep(m, expired, s);
    SlotsOnlyGrow(m, expired, s);
    HoldersAfter(w.messages, id, n);
    assert Next(w, s).value.messages == w.messages[id := n] && n.released <= n.acquired <= 1;
  }

  lemma {:induction false} SoundAcquire(w: World, k: nat, i: nat, reconciles: bool)
    requires WorldSound(w) && Next(w, Acquire(k, i, reconciles)).Some?
    ensures WorldSound(Next(w, Acquire(k, i, reconciles)).value)
  {
    var m := if w.inUse >= w.limit then WithoutSlot(reconciles) else WithSlot(reconciles);
    HoldersAfter(w.messages, (k, i), m);
    assert Sound(m);
    assert Next(w, Acquire(k, i, reconciles)).value.messages == w.messages[(k, i) := m];
  }

  lemma {:induction false} SoundWorldStep(w: World, s: Step)
    requires WorldSound(w) && Next(w, s).Some?
    ensures WorldSound(Next(w, s).value)
  {
    match s
    case Acquire(k, i, reconciles) => SoundAcquire(w, k, i, reconciles);
    case Begin(_, _) => assert Next(w, s).value.messages == w.messages;
    case Deadline(_) => assert Next(w, s).value.messages == w.messages;
    case _ => SoundOnMessage(w, s);
  }

  lemma {:induction false} PlacedWait(b: Batch, i: nat, m: Message, woken: bool)
    requires b.turn == i && b.sent == b.size && Placed(b, i, m) && WaiterAct(m, b.expired, woken).Some?
    ensures var n := WaiterAct(m, b.expired, woken).value;
      Placed(if n.waiter == Done then b.(turn := i + 1) else b, i, n)
  {
  }

  /** What a step on a message of its own batch does to its place. */
  lemma {:induction false} PlacedStep(b: Batch, i: nat, m: Message, s: Step)
    requires OnMessage(s) && s.index == i && InTurn(b, s) && Placed(b, i, m) && Act(m, b.expired, s).Some?
    requires b.turn <= b.sent <= b.size
    ensures var n := Act(m, b.expired, s).value; var b' := Advance(b, s, n);
      Placed(b', i, n) && b'.turn <= b'.sent <= b'.size
  {
    match s
    case WaiterMoves(_, _, woken) => PlacedWait(b, i, m, woken);
    case _ =>
  }

  /** And to the place of another message of the batch. */
  lemma {:induction false} OtherPlaced(b: Batch, i: nat, m: Message, s: Step, j: nat, other: Message)
    requires OnMessage(s) && s.index == i && InTurn(b, s) && Placed(b, i, m) && Act(m, b.expired, s).Some?
    requires j != i && Placed(b, j, other) && b.turn <= b.sent <= b.size
    ensures Placed(Advance(b, s, Act(m, b.expired, s).value), j, other)
  {
  }

  /** A step on a message keeps the deadline order with every other message of the batch. */
  lemma {:induction false} DeadlineStep(b: Batch, i: nat, m: Message, s: Step, j: nat, other: Message)
    requires OnMessage(s) && s.index == i && InTurn(b, s) && Placed(b, i, m) && Act(m, b.expired, s).Some?
    requires j != i && Placed(b, j, other)
    requires WaiterFacts(m) && if i < j then AfterTheDeadline(m, other) else AfterTheDeadline(other, m)
    ensures var n := Act(m, b.expired, s).value;
      if i < j then AfterTheDeadline(n, other) else AfterTheDeadline(other, n)
  {
  }

  /** A step leaves each message of every batch in its place. */
  lemma {:induction false} PlacedAfter(w: World, s: Step, k: nat, i: nat)
    requires Ordered(w) && OnMessage(s) && Next(w, s).Some? && (k, i) in w.messages
    ensures var w' := Next(w, s).value;
      k in w'.batches && Placed(w'.batches[k], i, w'.messages[(k, i)])
  {
    assert Placed(w.batches[k], i, w.messages[(k, i)]);
    if k == s.batch {
      var m := w.messages[(k, s.index)];
      assert Placed(w.batches[k], s.index, m);
      PlacedStep(w.batches[k], s.index, m, s);
      if i != s.index {
        OtherPlaced(w.batches[k], s.index, m, s, i, w.messages[(k, i)]);
      }
    }
  }

  lemma {:induction false} WaitersAreSound(w: World, id: (nat, nat))
    requires WorldSound(w) && id in w.messages
    ensures WaiterFacts(w.messages[id])
  {
    assert Sound(w.messages[id]);
  }

  lemma {:induction false} DeadlineAfter(w: World, s: Step, k: nat, i: nat, j: nat)
    requires WorldSound(w) && Ordered(w) && OnMessage(s) && Next(w, s).Some?
    requires (k, i) in w.messages && (k, j) in w.messages && i < j
    ensures AfterTheDeadline(Next(w, s).value.messages[(k, i)], Next(w, s).value.messages[(k, j)])
  {
    var b, first, second := w.batches[k], w.messages[(k, i)], w.messages[(k, j)];
    assert AfterTheDeadline(first, second);
    if k != s.batch || (i != s.index && j != s.index) {
      return;
    }
    assert Placed(b, i, first) && Placed(b, j, second);
    if i == s.index {
      WaitersAreSound(w, (k, i));
      DeadlineStep(b, i, first, s, j, second);
    } else {
      WaitersAreSound(w, (k, j));
      DeadlineStep(b, j, second, s, i, first);
    }
  }

  lemma {:induction false} TurnsAfter(w: World, s: Step)
    requires Ordered(w) && OnMessage(s) && Next(w, s).Some?
    ensures var bs := Next(w, s).value.batches; forall k :: k in bs ==> bs[k].turn <= bs[k].sent <= bs[k].size
  {
    var b, m := w.batches[s.batch], w.messages[(s.batch, s.index)];
    assert Placed(b, s.index, m);
    PlacedStep(b, s.index, m, s);
  }

  lemma {:induction false} OrderedOnMessage(w: World, s: Step)
    requires WorldSound(w) && Ordered(w) && OnMessage(s) && Next(w, s).Some?
    ensures Ordered(Next(w, s).value)
  {
    var w' := Next(w, s).value;
    forall k, i | (k, i) in w'.messages
      ensures k in w'.batches && Placed(w'.batches[k], i, w'.messages[(k, i)])
    {
      PlacedAfter(w, s, k, i);
    }
    forall k, i, j | (k, i) in w'.messages && (k, j) in w'.messages && i < j
      ensures AfterTheDeadline(w'.messages[(k, i)], w'.messages[(k, j)])
    {
      DeadlineAfter(w, s, k, i, j);
    }
    TurnsAfter(w, s);
  }

  /** A message is put in line behind those of its batch; a batch begins empty; a deadline only passes. */
  lemma {:induction false} OrderedElsewhere(w: World, s: Step)
    requires Ordered(w) && !OnMessage(s) && Next(w, s).Some?
    ensures Ordered(Next(w, s).value)
  {
    var w' := Next(w, s).value;
    forall k, i | (k, i) in w'.messages
      ensures k in w'.batches && Placed(w'.batches[k], i, w'.messages[(k, i)])
    {
      assert (k, i) in w.messages ==> Placed(w.batches[k], i, w.messages[(k, i)]);
    }
    forall k, i, j | (k, i) in w'.messages && (k, j) in w'.messages && i < j
      ensures AfterTheDeadline(w'.messages[(k, i)], w'.messages[(k, j)])
    {
      assert (k, i) in w.messages && (k, j) in w.messages ==>
               AfterTheDeadline(w.messages[(k, i)], w.messages[(k, j)]);
      assert (k, j) in w.messages ==> Placed(w.batches[k], j, w.messages[(k, j)]);
    }
  }

  lemma {:induction false} OrderedStep(w: World, s: Step)
    requires WorldSound(w) && Ordered(w) && Next(w, s).Some?
    ensures Ordered(Next(w, s).value)
  {
    if OnMessage(s) {
      OrderedOnMessage(w, s);
    } else {
      OrderedElsewhere(w, s);
    }
  }

  lemma {:induction false} Always(limit: nat, steps: seq<Step>)
    requires Run(limit, steps).Some?
    ensures var w := Run(limit, steps).value; WorldSound(w) && Ordered(w) && w.limit == limit
  {
    if steps != [] {
      Always(limit, steps[..|steps| - 1]);
      SoundWorldStep(Run(limit, steps[..|steps| - 1]).value, steps[|steps| - 1]);
      OrderedStep(Run(limit, steps[..|steps| - 1]).value, steps[|steps| - 1]);
    }
  }

  // ---------- the results ----------

  /** In every run: a message that found no slot is overloaded, until a passed deadline makes it uncertain. */
  lemma {:induction false} NoSlotIsOverload(limit: nat, steps: seq<Step>, id: (nat, nat))
    requires Run(limit, steps).Some? && id in Run(limit, steps).value.messages
    ensures
      var m := Run(limit, steps).value.messages[id];
      m.acquired == 0 ==> m.callback == Unarmed && m.cell == if HasWritten(m) then Uncertain else Overloaded
  {
    Always(limit, steps);
  }

  /**
   In every interleaving and for every message of every batch, late reconciliation happens at most once,
   only after a timeout and with the broker's true outcome; once both threads are through, it has
   happened exactly for the messages that timed out.
   */
  lemma {:induction false} BatchReconciledExactlyOnce(limit: nat, steps: seq<Step>, id: (nat, nat))
    requires Run(limit, steps).Some? && id in Run(limit, steps).value.messages
    ensures var m := Run(limit, steps).value.messages[id];
      && |m.submitted| <= 1
      && (m.submitted != [] ==> m.timedOut && m.reconciles && m.submitted[0] == (m.broker == Acked))
      && (m.waiter == Done && (m.callback == Finished || m.callback == Unarmed) ==>
            (m.submitted != [] <==> m.reconciles && m.timedOut))
  {
    Always(limit, steps);
    assert Sound(Run(limit, steps).value.messages[id]);
  }

  /** Slots in use never exceed the limit; a message that is through has released the slot it took, once. */
  lemma {:induction false} BatchSlotsBalance(limit: nat, steps: seq<Step>)
    requires Run(limit, steps).Some?
    ensures var w := Run(limit, steps).value;
      && 0 <= w.inUse == |Holders(w.messages)| <= limit
      && (forall id :: id in w.messages ==>
            var m := w.messages[id];
            && m.released <= m.acquired <= 1
            && (m.waiter == Done && (m.callback == Finished || m.callback == Unarmed) ==> m.released == m.acquired))
  {
    Always(limit, steps);
    forall id | id in Run(limit, steps).value.messages
      ensures Sound(Run(limit, steps).value.messages[id])
    {
    }
  }

  /** What the caller reads is the broker's word, or the failure of a message that was not sent. */
  predicate SaysTheBrokersWord(m: Message) {
    if m.broker == Acked then m.cell == Clear
    else Failing(m.cell) && (m.broker == Refused || m.callback == Unarmed)
  }

  /**
   Once its wait is over, and however much later it reads: the caller reads the broker's word exactly when
   the message did not time out, or its error was recorded over the uncertain outcome. In that last case
   the failure was or will be dispatched to late reconciliation as well, so it is handled twice.
   */
  lemma {:induction false} TheCallerReadsTheBrokersWordExactlyWhen(limit: nat, steps: seq<Step>, id: (nat, nat))
    requires Run(limit, steps).Some? && id in Run(limit, steps).value.messages
    requires Run(limit, steps).value.messages[id].waiter == Done
    ensures var m := Run(limit, steps).value.messages[id];
      && (SaysTheBrokersWord(m) <==> !m.timedOut || m.overwrote)
      && (m.cell == Clear <==> !m.timedOut && m.broker == Acked)
      && (m.cell == Uncertain <==> m.timedOut && !m.overwrote)
      && (m.overwrote ==> m.timedOut && m.broker == Refused)
      && (m.callback == Finished || m.callback == Unarmed ==>
            (Failing(m.cell) && m.submitted == [false] <==> m.overwrote && m.reconciles))
  {
    Always(limit, steps);
    assert Sound(Run(limit, steps).value.messages[id]);
  }

  /** A message that was never sent is still reported as uncertain, and reconciled as failed, past the deadline. */
  lemma {:induction false} UnsentMessagesTimeOutToo(limit: nat, steps: seq<Step>, id: (nat, nat))
    requires Run(limit, steps).Some? && id in Run(limit, steps).value.messages
    requires var m := Run(limit, steps).value.messages[id]; m.waiter == Done && m.callback == Unarmed
    ensures var m := Run(limit, steps).value.messages[id];
      && (m.cell == Uncertain <==> m.timedOut) && (Failing(m.cell) <==> !m.timedOut)
      && m.submitted == if m.timedOut && m.reconciles then [false] else []
  {
    Always(limit, steps);
    assert Sound(Run(limit, steps).value.messages[id]);
  }

  /** The messages of a returned batch that timed out are the last ones of its list. */
  lemma {:induction false} TimeoutsAreASuffix(limit: nat, steps: seq<Step>, k: nat, i: nat, j: nat)
    requires Run(limit, steps).Some?
    requires var w := Run(limit, steps).value;
      && k in w.batches && i < j < w.batches[k].turn
      && (k, i) in w.messages && (k, j) in w.messages && w.messages[(k, i)].timedOut
    ensures Run(limit, steps).value.messages[(k, j)].timedOut
  {
    Always(limit, steps);
    var w := Run(limit, steps).value;
    assert Placed(w.batches[k], j, w.messages[(k, j)]) && AfterTheDeadline(w.messages[(k, i)], w.messages[(k, j)]);
  }

  // ---------- a refusal that is handled twice ----------

  ghost predicate Reachable(w: World) {
    exists steps :: Run(w.limit, steps) == Some(w)
  }

  /** What holds at the start with one slot and is kept by every step. */
  ghost predicate KeptByRuns(r: World -> bool) {
    && r(World(1, 0, map[], map[]))
    && forall w, s :: r(w) && Next(w, s).Some? ==> r(Next(w, s).value)
  }

  lemma {:induction false} ReachableIsKept()
    ensures KeptByRuns(w => Reachable(w))
  {
    assert Run(1, []) == Some(World(1, 0, map[], map[]));
    forall w, s | Reachable(w) && Next(w, s).Some?
      ensures Reachable(Next(w, s).value)
    {
      var steps :| Run(w.limit, steps) == Some(w);
      assert (steps + [s])[..|steps|] == steps;
      assert Run(w.limit, steps + [s]) == Next(w, s);
    }
  }

  /** One slot, one batch, one message that took it. */
  function Lone(b: Batch, m: Message): World {
    World(1, m.acquired - m.released, map[0 := b], map[(0, 0) := m])
  }

  lemma {:induction false} NextOnLone(b: Batch, m: Message, s: Step, n: Message)
    requires OnMessage(s) && s.batch == 0 && s.index == 0 && InTurn(b, s) && Act(m, b.expired, s) == Some(n)
    ensures Next(Lone(b, m), s) == Some(Lone(Advance(b, s, n), n))
  {
    var w, b' := Lone(b, m), Advance(b, s, n);
    SlotsOnlyGrow(m, b.expired, s);
    assert w.messages[(0, 0)] == m && w.batches[0] == b;
    assert w.messages[(0, 0) := n] == map[(0, 0) := n] && w.batches[0 := b'] == map[0 := b'];
    assert WithMessage(w, s, n) == Lone(b', n);
  }

  /** The waiter goes on after the deadline, for the only message. */
  lemma {:induction false} Waits(r: World -> bool, m: Message, n: Message)
    requires KeptByRuns(r)
    requires r(Lone(Batch(1, 1, 0, true), m)) && WaiterAct(m, true, false) == Some(n)
    ensures r(Lone(Batch(1, 1, if n.waiter == Done then 1 else 0, true), n))
  {
    var b, s := Batch(1, 1, 0, true), WaiterMoves(0, 0, false);
    NextOnLone(b, m, s, n);
  }

  lemma {:induction false} CallsBack(r: World -> bool, m: Message, n: Message)
    requires KeptByRuns(r)
    requires r(Lone(Batch(1, 1, 1, true), m)) && CallbackAct(m) == Some(n)
    ensures r(Lone(Batch(1, 1, 1, true), n))
  {
    var b := Batch(1, 1, 1, true);
    NextOnLone(b, m, CallbackMoves(0, 0), n);
  }

  const SENT := Message(true, InLine, Armed, Silent, Clear, false, false, false, [], 1, 0, false)

  lemma {:induction false} Taken(r: World -> bool, w: World)
    requires KeptByRuns(r)
    requires w == Lone(Batch(1, 0, 0, false), WithSlot(true))
    ensures r(w)
  {
    var w0, w1 := World(1, 0, map[], map[]), World(1, 0, map[0 := Batch(1, 0, 0, false)], map[]);
    assert Next(w0, Begin(0, 1)) == Some(w1);
    assert w1.messages[(0, 0) := WithSlot(true)] == w.messages;
    assert Next(w1, Acquire(0, 0, true)) == Some(w);
  }

  lemma {:induction false} SentInTime(r: World -> bool)
    requires KeptByRuns(r)
    ensures r(Lone(Batch(1, 1, 0, false), SENT))
  {
    var b := Batch(1, 0, 0, false);
    Taken(r, Lone(b, WithSlot(true)));
    NextOnLone(b, WithSlot(true), Produce(0, 0, None), SENT);
  }

  lemma {:induction false} SentByTheDeadline(r: World -> bool)
    requires KeptByRuns(r)
    ensures r(Lone(Batch(1, 1, 0, true), SENT))
  {
    var w, late := Lone(Batch(1, 1, 0, false), SENT), Batch(1, 1, 0, true);
    SentInTime(r);
    assert w.batches[0 := late] == map[0 := late];
    assert Next(w, Deadline(0)).value == Lone(late, SENT);
  }

  lemma {:induction false} TimedOut(r: World -> bool, marked: Message)
    requires KeptByRuns(r)
    requires marked == SENT.(waiter := Marked, timedOut := true)
    ensures r(Lone(Batch(1, 1, 0, true), marked))
  {
    SentByTheDeadline(r);
    Waits(r, SENT, SENT.(waiter := Late));
    Waits(r, SENT.(waiter := Late), marked);
  }

  lemma {:induction false} Reads(r: World -> bool, m: Message)
    requires KeptByRuns(r)
    requires m == SENT.(waiter := Writing(false, true), timedOut := true)
    ensures r(Lone(Batch(1, 1, 0, true), m))
  {
    TimedOut(r, m.(waiter := Marked));
    Waits(r, m.(waiter := Marked), m.(waiter := Choosing(false)));
    Waits(r, m.(waiter := Choosing(false)), m);
  }

  lemma {:induction false} GivenUp(r: World -> bool, m: Message)
    requires KeptByRuns(r)
    requires m == SENT.(waiter := Done, timedOut := true, cell := Uncertain)
    ensures r(Lone(Batch(1, 1, 1, true), m))
  {
    var writing := m.(waiter := Writing(false, true), cell := Clear);
    Reads(r, writing);
    Waits(r, writing, m.(waiter := Written(false, true)));
    Waits(r, m.(waiter := Written(false, true)), m);
  }

  lemma {:induction false} RefusedLate(r: World -> bool, m: Message)
    requires KeptByRuns(r)
    requires m == Message(true, Done, Testing, Refused, Unavailable, true, true, false, [], 1, 1, true)
    ensures r(Lone(Batch(1, 1, 1, true), m))
  {
    var b, given := Batch(1, 1, 1, true), SENT.(waiter := Done, timedOut := true, cell := Uncertain);
    GivenUp(r, given);
    var reported := given.(callback := Recording, broker := Refused);
    NextOnLone(b, given, Report(0, 0, false), reported);
    var recorded := reported.(callback := Signalling, cell := Unavailable, overwrote := true);
    CallsBack(r, reported, recorded);
    CallsBack(r, recorded, recorded.(callback := Releasing, delivered := true));
    CallsBack(r, recorded.(callback := Releasing, delivered := true), m);
  }

  lemma {:induction false} Dispatched(r: World -> bool, m: Message)
    requires KeptByRuns(r)
    requires m == Message(true, Done, Finished, Refused, Unavailable, true, true, true, [false], 1, 1, true)
    ensures r(Lone(Batch(1, 1, 1, true), m))
  {
    var testing := m.(callback := Testing, dispatched := false, submitted := []);
    RefusedLate(r, testing);
    CallsBack(r, testing, testing.(callback := CbLocking));
    var locked := testing.(callback := CbSubmitting, dispatched := true);
    CallsBack(r, testing.(callback := CbLocking), locked);
    assert [] + [false] == [false];
    CallsBack(r, locked, m);
  }

  ghost predicate HandledTwice(w: World, id: (nat, nat)) {
    && Reachable(w) && id in w.messages
    && var m := w.messages[id];
      m.waiter == Done && m.callback == Finished && m.cell == Unavailable && m.submitted == [false]
  }

  /**
   It does happen: the refusal comes after the uncertain outcome was written, and both the caller, who
   reads a plain failure, and late reconciliation act on it.
   */
  lemma {:induction false} ARefusalIsHandledTwice()
    ensures exists w :: HandledTwice(w, (0, 0))
  {
    var m := Message(true, Done, Finished, Refused, Unavailable, true, true, true, [false], 1, 1, true);
    ReachableIsKept();
    Dispatched(w => Reachable(w), m);
    assert HandledTwice(Lone(Batch(1, 1, 1, true), m), (0, 0));
  }
}

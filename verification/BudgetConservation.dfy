/** Runs of the budget scripts: exactly when what is held is what is open, and windows that never overspend. */
module BudgetConservation {
  import opened Prelude
  import opened BudgetLedger

  // Opens, closes whose hash reads and script are apart, windows, attachments, refreshes, top-ups and
  // reconfigurations, in any order.

  /** A close between its hash reads and its script. */
  datatype Closer = Closer(rid: Id, key: Key, span: Option<Key>)

  /** And between the two reads, with the held key only. */
  datatype HalfRead = HalfRead(rid: Id, key: Key)

  /** `reset`: the budgets configured over open holds, as long as something is open under them. */
  datatype World = World(s: State, halves: map<nat, HalfRead>, closers: map<nat, Closer>, reset: set<Key>)

  datatype Step =
    | Open(rid: Id, r: Record, deadline: int)
    | ReadHeldKey(closer: nat, rid: Id, default: Key)
    | ReadSpanKey(closer: nat)
    | CloseScript(closer: nat)
    | Window(w: nat, k: Key, cost: real, order: seq<Id>)
    | Attach(w: nat, rid: Id)
    | Refresh(rid: Id, deadline: int)
    | TopUp(k: Key, amount: real)
    | Configure(k: Key, balance: real, threshold: Option<real>)
    | SpanChanges(p: Key, spent: real, cap: Option<real>)   // costs booked on a span, or its cap set

  function Do(w: World, step: Step): World {
    Settled(Act(w, step))
  }

  /** A budget under which nothing is open is in order again. */
  function Settled(w: World): World {
    w.(reset := StillOpen(w.s.records, w.reset))
  }

  function StillOpen(records: map<Id, Record>, reset: set<Key>): set<Key> {
    set k | k in reset && OpenUnder(records, k) != map[]
  }

  function Act(w: World, step: Step): World {
    match step
    case Open(rid, r, deadline) =>
      w.(s := OpenSpec(w.s, rid, r, deadline).0)
    case ReadHeldKey(c, rid, default) =>
      w.(halves := w.halves[c := HalfRead(rid, KeysToClose(w.s, rid, default).0)])
    case ReadSpanKey(c) =>
      if c !in w.halves then w
      else
        var half := w.halves[c];
        w.(halves := w.halves - {c},
           closers := w.closers[c := Closer(half.rid, half.key, KeysToClose(w.s, half.rid, half.key).1)])
    case CloseScript(c) =>
      if c !in w.closers then w
      else w.(s := CloseSpec(w.s, w.closers[c].rid, w.closers[c].key, w.closers[c].span).0, closers := w.closers - {c})
    case Window(win, k, cost, order) => w.(s := SinkSpec(w.s, win, k, cost, order).0)
    case Attach(win, rid) => w.(s := AttachSpec(w.s, win, rid))
    case Refresh(rid, deadline) => w.(s := RefreshSpec(w.s, rid, deadline))
    case TopUp(k, amount) => w.(s := Applied(w.s, TopUpSpec(w.s, k, amount)))
    case Configure(k, balance, threshold) =>
      var r := ConfigureSpec(w.s, k, balance, threshold);
      if r.Ok? && OpenUnder(w.s.records, k) != map[] then w.(s := r.value, reset := w.reset + {k})
      else w.(s := Applied(w.s, r))
    case SpanChanges(p, spent, cap) =>
      w.(s := w.s.(spans := w.s.spans[p := SpanAt(w.s, p).(spent := spent, cap := cap)]))
  }

  function Run(w: World, steps: seq<Step>): World {
    if steps == [] then w else Do(Run(w, steps[..|steps| - 1]), steps[|steps| - 1])
  }

  // ---------- what is open ----------

  /** The open holds under a budget, with their amounts. */
  function OpenUnder(records: map<Id, Record>, k: Key): map<Id, real> {
    map rid | rid in records && records[rid].heldKey == k :: records[rid].reserved
  }

  ghost function OpenSum(s: State, k: Key): real {
    Sum(OpenUnder(s.records, k))
  }

  ghost predicate Backed(s: State, k: Key, reset: set<Key>) {
    && 0.0 <= BudgetAt(s, k).held <= OpenSum(s, k)
    && (k !in reset ==> BudgetAt(s, k).held == OpenSum(s, k))
  }

  ghost predicate Recorded(s: State) {
    forall rid :: rid in s.records ==> s.records[rid].reserved > 0.0 && rid in s.pending
  }

  /** Held is what is open; at most that for budgets configured over open holds. */
  ghost predicate Balanced(s: State, reset: set<Key>) {
    Recorded(s) && forall k: Key :: Backed(s, k, reset)
  }

  ghost predicate Conserved(s: State) {
    forall k: Key :: BudgetAt(s, k).held == OpenSum(s, k)
  }

  /** The held key a close read is the one of the record it finds. */
  ghost predicate OwnKey(s: State, c: Closer) {
    c.rid in s.records ==> c.key == s.records[c.rid].heldKey
  }

  ghost predicate OwnHalf(s: State, half: HalfRead) {
    half.rid in s.records ==> half.key == s.records[half.rid].heldKey
  }

  /**
   A close finds the held key it read, and a window ends the holds of its own budget. Nothing is asked of
   opens, reads, attachments, refreshes, top-ups and reconfigurations; ids may be opened again.
   */
  ghost predicate Proper(w: World, step: Step) {
    match step
    case CloseScript(c) => c in w.closers ==> OwnKey(w.s, w.closers[c])
    case Window(win, k, _, order) =>
      Lists(order, Attached(w.s, win)) && (win in w.s.applied || OwnHolds(w.s, k, order))
    case _ => true
  }

  ghost predicate OwnHolds(s: State, k: Key, order: seq<Id>) {
    forall rid :: rid in order && rid in s.records ==> s.records[rid].heldKey == k
  }

  ghost predicate ProperRun(w: World, steps: seq<Step>) {
    steps == [] || (ProperRun(w, steps[..|steps| - 1]) && Proper(Run(w, steps[..|steps| - 1]), steps[|steps| - 1]))
  }

  // ---------- one hold more, one hold less ----------

  lemma {:induction false} OpenSumAdd(records: map<Id, Record>, rid: Id, r: Record, k: Key)
    requires rid !in records
    ensures Sum(OpenUnder(records[rid := r], k)) ==
            Sum(OpenUnder(records, k)) + if r.heldKey == k then r.reserved else 0.0
  {
    if r.heldKey == k {
      assert OpenUnder(records[rid := r], k) == OpenUnder(records, k)[rid := r.reserved];
      SumAdd(OpenUnder(records, k), rid, r.reserved);
    } else {
      assert OpenUnder(records[rid := r], k) == OpenUnder(records, k);
    }
  }

  lemma {:induction false} OpenSumRemove(records: map<Id, Record>, rid: Id, k: Key)
    requires rid in records
    ensures Sum(OpenUnder(records - {rid}, k))
         == Sum(OpenUnder(records, k)) - if records[rid].heldKey == k then records[rid].reserved else 0.0
  {
    if records[rid].heldKey == k {
      SumSplit(OpenUnder(records, k), rid);
      assert OpenUnder(records - {rid}, k) == OpenUnder(records, k) - {rid};
    } else {
      assert OpenUnder(records - {rid}, k) == OpenUnder(records, k);
    }
  }

  lemma {:induction false} OpenSumNonNegative(s: State, k: Key)
    requires Recorded(s)
    ensures OpenSum(s, k) >= 0.0
    ensures OpenUnder(s.records, k) == map[] ==> OpenSum(s, k) == 0.0
  {
    SumNonNegative(OpenUnder(s.records, k));
  }

  /** The end of a hold, budget by budget. */
  lemma {:induction false} EndHoldBudget(s: State, rid: Id, k: Key, span: Option<Key>, reserved: real, j: Key)
    requires BudgetAt(s, k).held >= 0.0 && reserved >= 0.0
    ensures BudgetAt(EndHold(s, rid, k, span, reserved), j)
         == if j == k then BudgetAt(s, k).(held := BudgetAt(s, k).held - Released(s, k, reserved)) else BudgetAt(s, j)
  {
    var t := ReleaseHeld(s, k, reserved);
    assert BudgetAt(EndHold(s, rid, k, span, reserved), j) == BudgetAt(t, j);
  }

  /** Ending a hold with its own held key keeps the balance, and takes off all it reserved. */
  lemma {:induction false} EndHoldBalanced(s: State, reset: set<Key>, rid: Id, span: Option<Key>)
    requires Balanced(s, reset) && rid in s.records
    ensures
      var r := s.records[rid];
      && Balanced(EndHold(s, rid, r.heldKey, span, r.reserved), reset)
      && (r.heldKey !in reset ==> Released(s, r.heldKey, r.reserved) == r.reserved)
  {
    var r := s.records[rid];
    var t := EndHold(s, rid, r.heldKey, span, r.reserved);
    assert Backed(s, r.heldKey, reset);
    forall k: Key
      ensures Backed(t, k, reset)
    {
      assert Backed(s, k, reset);
      EndHoldBudget(s, rid, r.heldKey, span, r.reserved, k);
      OpenSumRemove(s.records, rid, k);
      OpenSumNonNegative(t, k);
    }
    OpenSumNonNegative(t, r.heldKey);
    OpenSumRemove(s.records, rid, r.heldKey);
  }

  lemma {:induction false} CloseBalanced(s: State, reset: set<Key>, rid: Id, k: Key, span: Option<Key>)
    requires Balanced(s, reset) && (rid in s.records ==> k == s.records[rid].heldKey)
    ensures Balanced(CloseSpec(s, rid, k, span).0, reset)
  {
    if rid in s.records {
      EndHoldBalanced(s, reset, rid, span);
    } else {
      SameBudgets(s, CloseSpec(s, rid, k, span).0, reset);
    }
  }

  lemma {:induction false} SameBudgets(s: State, t: State, reset: set<Key>)
    requires Balanced(s, reset) && t.records == s.records && Recorded(t)
    requires forall k: Key :: BudgetAt(t, k).held == BudgetAt(s, k).held
    ensures Balanced(t, reset)
  {
    forall k: Key
      ensures Backed(t, k, reset)
    {
      assert Backed(s, k, reset);
    }
  }

  lemma {:induction false} SinkReleaseBalanced(s: State, reset: set<Key>, k: Key, rid: Id)
    requires Balanced(s, reset) && (rid in s.records ==> s.records[rid].heldKey == k)
    ensures Balanced(SinkRelease(s, k, rid), reset)
  {
    if rid in s.records {
      EndHoldBalanced(s, reset, rid, s.records[rid].spanKey);
    } else {
      assert Backed(s, k, reset);
      SameBudgets(s, SinkRelease(s, k, rid), reset);
    }
  }

  lemma {:induction false} SinkReleaseRecords(s: State, k: Key, order: seq<Id>)
    ensures SinkReleaseAll(s, k, order).records == s.records - Elements(order)
  {
    if order != [] {
      var n := |order| - 1;
      SinkReleaseRecords(s, k, order[..n]);
      ElementsSnoc(order, n);
      assert order[..n + 1] == order;
      assert s.records - Elements(order[..n]) - {order[n]} == s.records - (Elements(order[..n]) + {order[n]});
    }
  }

  /** A window that is applied forgets every reservation attached to it, open or not, and the set itself. */
  lemma {:induction false} WindowForgets(s: State, w: nat, k: Key, cost: real, order: seq<Id>)
    requires w !in s.applied
    ensures
      var t := SinkSpec(s, w, k, cost, order).0;
      && t.records == s.records - Elements(order) && t.pending == s.pending - Elements(order)
      && t.windows == s.windows - {w} && t.applied == s.applied + {w}
  {
    var u := Deduct(s.(applied := s.applied + {w}), k, cost);
    SinkReleaseRecords(u, k, order);
    SinkReleasePending(u, k, order);
  }

  lemma {:induction false} SinkReleasePending(s: State, k: Key, order: seq<Id>)
    ensures
      var t := SinkReleaseAll(s, k, order);
      t.pending == s.pending - Elements(order) && t.windows == s.windows && t.applied == s.applied
  {
    if order != [] {
      var n := |order| - 1;
      SinkReleasePending(s, k, order[..n]);
      ElementsSnoc(order, n);
      assert order[..n + 1] == order;
      assert s.pending - Elements(order[..n]) - {order[n]} == s.pending - (Elements(order[..n]) + {order[n]});
    }
  }

  lemma {:induction false} SinkReleaseAllBalanced(s: State, reset: set<Key>, k: Key, order: seq<Id>)
    requires Balanced(s, reset) && OwnHolds(s, k, order)
    ensures Balanced(SinkReleaseAll(s, k, order), reset)
  {
    if order != [] {
      var n := |order| - 1;
      assert OwnHolds(s, k, order[..n]);
      SinkReleaseAllBalanced(s, reset, k, order[..n]);
      SinkReleaseRecords(s, k, order[..n]);
      assert order[n] in order;
      SinkReleaseBalanced(SinkReleaseAll(s, k, order[..n]), reset, k, order[n]);
    }
  }

  lemma {:induction false} WindowBalanced(s: State, reset: set<Key>, w: nat, k: Key, cost: real, order: seq<Id>)
    requires Balanced(s, reset) && (w in s.applied || OwnHolds(s, k, order))
    ensures Balanced(SinkSpec(s, w, k, cost, order).0, reset)
  {
    if w !in s.applied {
      var t := Deduct(s.(applied := s.applied + {w}), k, cost);
      SameBudgets(s, t, reset);
      SinkReleaseAllBalanced(t, reset, k, order);
      SameBudgets(SinkReleaseAll(t, k, order), EndWindow(s, w, k, cost, order), reset);
      SameBudgets(EndWindow(s, w, k, cost, order), SinkSpec(s, w, k, cost, order).0, reset);
    }
  }

  lemma {:induction false} OpenBalanced(s: State, reset: set<Key>, rid: Id, r: Record, deadline: int)
    requires Balanced(s, reset)
    ensures Balanced(OpenSpec(s, rid, r, deadline).0, reset)
  {
    var t := OpenSpec(s, rid, r, deadline).0;
    if OpenSpec(s, rid, r, deadline).1 == Opened {
      forall k: Key
        ensures Backed(t, k, reset)
      {
        assert Backed(s, k, reset);
        OpenSumAdd(s.records, rid, r, k);
      }
    }
  }

  lemma {:induction false} ConfigureBalanced(s: State, reset: set<Key>, k: Key, balance: real, threshold: Option<real>)
    requires Balanced(s, reset)
    ensures var r := ConfigureSpec(s, k, balance, threshold);
      r.Ok? ==> Balanced(r.value, if OpenUnder(s.records, k) != map[] then reset + {k} else reset)
  {
    var r := ConfigureSpec(s, k, balance, threshold);
    if r.Ok? {
      var reset' := if OpenUnder(s.records, k) != map[] then reset + {k} else reset;
      forall j: Key
        ensures Backed(r.value, j, reset')
      {
        assert Backed(s, j, reset);
        OpenSumNonNegative(s, j);
      }
    }
  }

  lemma {:induction false} SettledIsBalanced(w: World)
    requires Balanced(w.s, w.reset)
    ensures Balanced(Settled(w).s, Settled(w).reset)
  {
    forall k: Key
      ensures Backed(w.s, k, Settled(w).reset)
    {
      assert Backed(w.s, k, w.reset);
      OpenSumNonNegative(w.s, k);
    }
  }

  /** Every proper step keeps it. */
  lemma {:induction false} StepIsBalanced(w: World, step: Step)
    requires Balanced(w.s, w.reset) && Proper(w, step)
    ensures Balanced(Do(w, step).s, Do(w, step).reset)
  {
    ActIsBalanced(w, step);
    SettledIsBalanced(Act(w, step));
  }

  lemma {:induction false} ActIsBalanced(w: World, step: Step)
    requires Balanced(w.s, w.reset) && Proper(w, step)
    ensures Balanced(Act(w, step).s, Act(w, step).reset)
  {
    match step
    case Open(rid, r, deadline) => OpenBalanced(w.s, w.reset, rid, r, deadline);
    case ReadHeldKey(_, _, _) =>
    case ReadSpanKey(_) =>
    case CloseScript(c) =>
      if c in w.closers {
        CloseBalanced(w.s, w.reset, w.closers[c].rid, w.closers[c].key, w.closers[c].span);
      }
    case Window(win, k, cost, order) => WindowBalanced(w.s, w.reset, win, k, cost, order);
    case Attach(_, _) => SameBudgets(w.s, Act(w, step).s, w.reset);
    case Refresh(_, _) => SameBudgets(w.s, Act(w, step).s, w.reset);
    case TopUp(_, _) => SameBudgets(w.s, Act(w, step).s, w.reset);
    case Configure(k, balance, threshold) => ConfigureBalanced(w.s, w.reset, k, balance, threshold);
    case SpanChanges(_, _, _) => SameBudgets(w.s, Act(w, step).s, w.reset);
  }

  /** A step leaves a record as it is, removes it, or enters it by opening its id. */
  lemma {:induction false} StepRecords(w: World, step: Step, rid: Id)
    ensures var s, s' := w.s, Do(w, step).s;
      rid in s'.records ==>
        || (rid in s.records && s'.records[rid] == s.records[rid])
        || (rid !in s.records && step.Open? && step.rid == rid && s'.records[rid] == step.r)
  {
    match step
    case Window(win, k, cost, order) =>
      if win !in w.s.applied {
        WindowForgets(w.s, win, k, cost, order);
      }
    case Open(id, r, deadline) => OpenRecords(w.s, id, r, deadline);
    case CloseScript(c) =>
      if c in w.closers {
        CloseRecords(w.s, w.closers[c]);
      }
    case _ =>
  }

  lemma {:induction false} OpenRecords(s: State, rid: Id, r: Record, deadline: int)
    ensures
      var t := OpenSpec(s, rid, r, deadline).0;
      t.records == s.records || (rid !in s.records && t.records == s.records[rid := r])
  {
  }

  lemma {:induction false} CloseRecords(s: State, c: Closer)
    ensures CloseSpec(s, c.rid, c.key, c.span).0.records == s.records - {c.rid}
  {
  }

  const EMPTY := World(START, map[], map[], {})

  lemma {:induction false} StartIsBalanced()
    ensures Balanced(START, {})
  {
    forall k: Key
      ensures Backed(START, k, {})
    {
      assert OpenUnder(START.records, k) == map[];
    }
  }

  lemma {:induction false} RunIsBalanced(steps: seq<Step>)
    requires ProperRun(EMPTY, steps)
    ensures Balanced(Run(EMPTY, steps).s, Run(EMPTY, steps).reset)
  {
    if steps == [] {
      StartIsBalanced();
    } else {
      RunIsBalanced(steps[..|steps| - 1]);
      StepIsBalanced(Run(EMPTY, steps[..|steps| - 1]), steps[|steps| - 1]);
    }
  }

  /**
   In every proper run each budget holds exactly the sum of its open reservations, or at most that
   while ones are open over which it was configured, and every open reservation is pending. Replays, ids used
   again, races of settle, expiry and windows over one hold, and late refreshes make no difference.
   */
  lemma {:induction false} HeldIsWhatIsOpen(steps: seq<Step>, k: Key)
    requires ProperRun(EMPTY, steps)
    ensures var w := Run(EMPTY, steps);
      && 0.0 <= BudgetAt(w.s, k).held <= OpenSum(w.s, k)
      && (k !in w.reset ==> BudgetAt(w.s, k).held == OpenSum(w.s, k))
      && (OpenUnder(w.s.records, k) == map[] ==> k !in w.reset && BudgetAt(w.s, k).held == 0.0)
      && (forall rid :: rid in w.s.records ==> rid in w.s.pending)
  {
    RunIsBalanced(steps);
    var w := Run(EMPTY, steps);
    assert Backed(w.s, k, w.reset);
    OpenSumNonNegative(w.s, k);
  }

  // ---------- races of an open with a close ----------

  /** The keys a close read are the ones of the record it would find. */
  ghost predicate Current(s: State, c: Closer) {
    OwnKey(s, c) && (c.rid in s.records ==> c.span == s.records[c.rid].spanKey)
  }

  ghost predicate AllCurrent(w: World) {
    && (forall c :: c in w.closers ==> Current(w.s, w.closers[c]))
    && (forall c :: c in w.halves ==> OwnHalf(w.s, w.halves[c]))
  }

  /** An id is opened only when no close of it is in flight with other keys. */
  ghost predicate Unraced(w: World, step: Step) {
    step.Open? && step.rid !in w.s.records ==>
      && (forall c :: c in w.closers && w.closers[c].rid == step.rid ==>
            w.closers[c].key == step.r.heldKey && w.closers[c].span == step.r.spanKey)
      && (forall c :: c in w.halves && w.halves[c].rid == step.rid ==> w.halves[c].key == step.r.heldKey)
  }

  ghost predicate UnracedRun(w: World, steps: seq<Step>) {
    steps == [] || (UnracedRun(w, steps[..|steps| - 1]) && Unraced(Run(w, steps[..|steps| - 1]), steps[|steps| - 1]))
  }

  lemma {:induction false} UnracedKeepsCurrent(w: World, step: Step)
    requires AllCurrent(w) && Unraced(w, step)
    ensures AllCurrent(Do(w, step))
  {
    var w' := Do(w, step);
    forall c | c in w'.closers
      ensures Current(w'.s, w'.closers[c])
    {
      StepRecords(w, step, w'.closers[c].rid);
      if c in w.closers && w.closers[c] == w'.closers[c] {
        assert Current(w.s, w.closers[c]);
      }
    }
    forall c | c in w'.halves
      ensures OwnHalf(w'.s, w'.halves[c])
    {
      StepRecords(w, step, w'.halves[c].rid);
      if c in w.halves && w.halves[c] == w'.halves[c] {
        assert OwnHalf(w.s, w.halves[c]);
      }
    }
  }

  /** Without such a race every close finds the keys it read, so what is asked of closes holds. */
  lemma {:induction false} UnracedClosesFindTheirKeys(w: World, steps: seq<Step>)
    requires AllCurrent(w) && UnracedRun(w, steps)
    ensures AllCurrent(Run(w, steps))
  {
    if steps != [] {
      UnracedClosesFindTheirKeys(w, steps[..|steps| - 1]);
      UnracedKeepsCurrent(Run(w, steps[..|steps| - 1]), steps[|steps| - 1]);
    }
  }

  /** What is asked of windows alone. */
  ghost predicate OwnWindowsRun(w: World, steps: seq<Step>) {
    steps == [] ||
    (OwnWindowsRun(w, steps[..|steps| - 1])
     && (steps[|steps| - 1].Window? ==> Proper(Run(w, steps[..|steps| - 1]), steps[|steps| - 1])))
  }

  /** So runs without such races, whose windows end holds of their own budgets, are proper. */
  lemma {:induction false} UnracedRunsAreProper(steps: seq<Step>)
    requires UnracedRun(EMPTY, steps) && OwnWindowsRun(EMPTY, steps)
    ensures ProperRun(EMPTY, steps)
  {
    if steps != [] {
      UnracedRunsAreProper(steps[..|steps| - 1]);
      UnracedClosesFindTheirKeys(EMPTY, steps[..|steps| - 1]);
    }
  }

  /** The id is not opened. */
  ghost predicate NeverOpens(steps: seq<Step>, rid: Id) {
    forall i :: 0 <= i < |steps| && steps[i].Open? ==> steps[i].rid != rid
  }

  /** An id that is not opened again never holds again after its end, so its hold comes off once. */
  lemma {:induction false} EndedStaysEnded(w: World, steps: seq<Step>, rid: Id)
    requires NeverOpens(steps, rid) && rid !in w.s.records
    ensures rid !in Run(w, steps).s.records
  {
    if steps != [] {
      EndedStaysEnded(w, steps[..|steps| - 1], rid);
      StepRecords(Run(w, steps[..|steps| - 1]), steps[|steps| - 1], rid);
    }
  }

  /** Settling or expiring an open hold takes off exactly what it reserved and nothing else. */
  lemma {:induction false} CloseTakesOffItsOwn(w: World, c: nat)
    requires Balanced(w.s, w.reset) && c in w.closers && w.closers[c].rid in w.s.records
    requires OwnKey(w.s, w.closers[c]) && w.closers[c].key !in w.reset
    ensures
      var r, s' := w.s.records[w.closers[c].rid], Do(w, CloseScript(c)).s;
      && CloseSpec(w.s, w.closers[c].rid, w.closers[c].key, w.closers[c].span).1 == Closed(r.customer, r.reserved)
      && (forall k: Key :: BudgetAt(s', k).held == BudgetAt(w.s, k).held - if k == r.heldKey then r.reserved else 0.0)
      && s'.records == w.s.records - {w.closers[c].rid}
  {
    var closer := w.closers[c];
    var r := w.s.records[closer.rid];
    assert Backed(w.s, closer.key, w.reset);
    EndHoldBalanced(w.s, w.reset, closer.rid, closer.span);
    forall k: Key
      ensures BudgetAt(Do(w, CloseScript(c)).s, k).held ==
              BudgetAt(w.s, k).held - if k == r.heldKey then r.reserved else 0.0
    {
      EndHoldBudget(w.s, closer.rid, closer.key, closer.span, r.reserved, k);
    }
  }

  /** What expiring the due holds leaves, and the alerts it raises. */
  ghost predicate Expired(s: State, reset: set<Key>, due: seq<Id>, s': State, alerts: seq<(Id, Closed)>) {
    && Balanced(s', reset)
    && s'.records == s.records - Elements(due) && s'.pending == s.pending - Elements(due)
    && (forall rid :: rid in due && rid in s.records && s.records[rid].heldKey !in reset ==>
          (rid, Closed(s.records[rid].customer, s.records[rid].reserved)) in alerts)
    && (forall a :: a in alerts ==> a.0 in due && a.0 in s.records)
    && (forall i, j :: 0 <= i < j < |alerts| ==> alerts[i].0 != alerts[j].0)
  }

  /** Expiry ends every due hold, and raises one alert per hold it ended, with all it reserved. */
  lemma {:induction false} ExpiryEndsWhatIsDue(s: State, reset: set<Key>, due: seq<Id>, default: Key)
    requires Balanced(s, reset)
    ensures var r := SettleAll(s, due, default); Expired(s, reset, due, r.0, r.1)
  {
    if due != [] {
      var n := |due| - 1;
      var before := SettleAll(s, due[..n], default);
      ExpiryEndsWhatIsDue(s, reset, due[..n], default);
      ExpiryStep(before.0, reset, due[n], default);
      var last := Settle(before.0, due[n], default);
      ExpiredAlso(s, reset, due[..n], before.0, before.1, due[n], last.0, last.1);
      assert due == due[..n] + [due[n]];
    }
  }

  lemma {:induction false} ExpiredAlso(
    s: State, reset: set<Key>, due: seq<Id>, s': State, alerts: seq<(Id, Closed)>, rid: Id, last: State, closed: Closed)
    requires Expired(s, reset, due, s', alerts) && Balanced(last, reset)
    requires last.records == s'.records - {rid} && last.pending == s'.pending - {rid}
    requires rid in s'.records <==> closed != Nothing
    requires rid in s'.records && s'.records[rid].heldKey !in reset ==>
               closed == Closed(s'.records[rid].customer, s'.records[rid].reserved)
    ensures Expired(s, reset, due + [rid], last, alerts + if closed == Nothing then [] else [(rid, closed)])
  {
    assert Elements(due + [rid]) == Elements(due) + {rid};
    var more := alerts + if closed == Nothing then [] else [(rid, closed)];
    assert forall x :: x in more <==> x in alerts || (closed != Nothing && x == (rid, closed));
    assert rid in s'.records ==> rid !in due;
    forall i, j | 0 <= i < j < |more|
      ensures more[i].0 != more[j].0
    {
      assert alerts != [] && i < |alerts| ==> alerts[i] in alerts;
    }
  }

  lemma {:induction false} ExpiryStep(s: State, reset: set<Key>, rid: Id, default: Key)
    requires Balanced(s, reset)
    ensures var r := Settle(s, rid, default);
      && Balanced(r.0, reset)
      && r.0.records == s.records - {rid} && r.0.pending == s.pending - {rid}
      && (rid in s.records <==> r.1 != Nothing)
      && (rid in s.records && s.records[rid].heldKey !in reset ==>
            r.1 == Closed(s.records[rid].customer, s.records[rid].reserved))
  {
    var keys := KeysToClose(s, rid, default);
    CloseBalanced(s, reset, rid, keys.0, keys.1);
    if rid in s.records {
      EndHoldBalanced(s, reset, rid, keys.1);
    }
  }

  // ---------- exactly when a script conserves ----------

  /** CLOSE_SCRIPT conserves exactly when there is no record, or it was given the record's own held key. */
  lemma {:induction false} CloseConservesExactlyWhenKeysMatch(s: State, rid: Id, k: Key, span: Option<Key>)
    requires Balanced(s, {})
    ensures Conserved(CloseSpec(s, rid, k, span).0) <==> (rid in s.records ==> s.records[rid].heldKey == k)
  {
    var t := CloseSpec(s, rid, k, span).0;
    if rid in s.records && s.records[rid].heldKey != k {
      var own := s.records[rid].heldKey;
      assert Backed(s, own, {}) && Backed(s, k, {});
      EndHoldBudget(s, rid, k, span, s.records[rid].reserved, own);
      OpenSumRemove(s.records, rid, own);
      assert BudgetAt(t, own).held != OpenSum(t, own);
    } else {
      CloseKeepsConserved(s, rid, k, span);
    }
  }

  lemma {:induction false} CloseKeepsConserved(s: State, rid: Id, k: Key, span: Option<Key>)
    requires Balanced(s, {}) && (rid in s.records ==> s.records[rid].heldKey == k)
    ensures Conserved(CloseSpec(s, rid, k, span).0)
  {
    assert Backed(s, k, {});
    forall j: Key
      ensures BudgetAt(CloseSpec(s, rid, k, span).0, j).held == OpenSum(CloseSpec(s, rid, k, span).0, j)
    {
      assert Backed(s, j, {});
      if rid in s.records {
        EndHoldBudget(s, rid, k, span, s.records[rid].reserved, j);
        OpenSumRemove(s.records, rid, j);
        OpenSumNonNegative(CloseSpec(s, rid, k, span).0, k);
        OpenSumRemove(s.records, rid, k);
      }
    }
  }

  lemma {:induction false} OtherBudgetsStep(s: State, k: Key, rid: Id, j: Key)
    requires Recorded(s) && BudgetAt(s, k).held >= 0.0 && j != k
    ensures var t := SinkRelease(s, k, rid);
      && BudgetAt(t, k).held >= 0.0 && Recorded(t) && BudgetAt(t, j) == BudgetAt(s, j)
      && OpenSum(t, j) == OpenSum(s, j) -
           if rid in s.records && s.records[rid].heldKey == j then s.records[rid].reserved else 0.0
  {
    if rid in s.records {
      var r := s.records[rid];
      OpenSumRemove(s.records, rid, j);
      EndHoldBudget(s, rid, k, r.spanKey, r.reserved, j);
      EndHoldBudget(s, rid, k, r.spanKey, r.reserved, k);
    } else {
      EndHoldBudget(s, rid, k, None, 0.0, j);
      EndHoldBudget(s, rid, k, None, 0.0, k);
      assert SinkRelease(s, k, rid).records == s.records;
    }
  }

  /** Some open hold of budget `j` is listed. */
  ghost predicate ListsHoldOf(s: State, order: seq<Id>, j: Key) {
    exists rid :: rid in order && rid in s.records && s.records[rid].heldKey == j
  }

  /** Under another budget's window a hold just vanishes from the records: its own budget is not touched. */
  lemma {:induction false} OtherBudgets(s: State, k: Key, order: seq<Id>, j: Key)
    requires Recorded(s) && BudgetAt(s, k).held >= 0.0 && j != k
    ensures var t := SinkReleaseAll(s, k, order);
      && BudgetAt(t, k).held >= 0.0 && Recorded(t) && BudgetAt(t, j) == BudgetAt(s, j)
      && OpenSum(t, j) <= OpenSum(s, j)
      && (ListsHoldOf(s, order, j) ==> OpenSum(t, j) < OpenSum(s, j))
  {
    if order != [] {
      var front, rid := order[..|order| - 1], order[|order| - 1];
      OtherBudgets(s, k, front, j);
      SinkReleaseRecords(s, k, front);
      OtherBudgetsStep(SinkReleaseAll(s, k, front), k, rid, j);
      assert order == front + [rid];
      if ListsHoldOf(s, order, j) && !ListsHoldOf(s, front, j) {
        assert rid in s.records && s.records[rid].heldKey == j && rid !in front;
      }
    }
  }

  /** The sink conserves exactly when every live hold attached to the window is one of its own budget. */
  lemma {:induction false} SinkConservesExactlyWhenHoldsAreItsOwn(s: State, w: nat, k: Key, cost: real, order: seq<Id>)
    requires Balanced(s, {}) && w !in s.applied
    ensures Conserved(SinkSpec(s, w, k, cost, order).0) <==> OwnHolds(s, k, order)
  {
    var end := SinkSpec(s, w, k, cost, order).0;
    if OwnHolds(s, k, order) {
      WindowBalanced(s, {}, w, k, cost, order);
      forall j: Key
        ensures BudgetAt(end, j).held == OpenSum(end, j)
      {
        assert Backed(end, j, {});
      }
    } else {
      var rid :| rid in order && rid in s.records && s.records[rid].heldKey != k;
      var j, t := s.records[rid].heldKey, Deduct(s.(applied := s.applied + {w}), k, cost);
      assert Backed(s, j, {}) && Backed(s, k, {}) && ListsHoldOf(t, order, j);
      OtherBudgets(t, k, order, j);
      assert BudgetAt(end, j).held != OpenSum(end, j);
    }
  }

  // ---------- no overspend ----------

  ghost predicate Solvent(s: State) {
    forall k: Key :: Covers(BudgetAt(s, k))
  }

  /** The window costs at most what it releases. */
  ghost predicate Covered(s: State, step: Step) {
    step.Window? && step.w !in s.applied ==>
      step.cost <= BudgetAt(s, step.k).held - BudgetAt(EndWindow(s, step.w, step.k, step.cost, step.order), step.k).held
  }

  ghost predicate CoveredRun(w: World, steps: seq<Step>) {
    steps == [] || (CoveredRun(w, steps[..|steps| - 1]) && Covered(Run(w, steps[..|steps| - 1]).s, steps[|steps| - 1]))
  }

  /** Ending a hold, with whatever keys, changes nothing of a budget but what it holds, and only downwards. */
  ghost predicate OnlyHeldDrops(b: Budget, b': Budget) {
    b' == b.(held := b'.held) && (b.held >= 0.0 ==> 0.0 <= b'.held <= b.held)
  }

  lemma {:induction false} EndHoldDrops(s: State, rid: Id, k: Key, span: Option<Key>, reserved: real, j: Key)
    requires reserved >= 0.0
    ensures OnlyHeldDrops(BudgetAt(s, j), BudgetAt(EndHold(s, rid, k, span, reserved), j))
  {
    assert BudgetAt(EndHold(s, rid, k, span, reserved), j) == BudgetAt(ReleaseHeld(s, k, reserved), j);
  }

  lemma {:induction false} SinkReleaseAllDrops(s: State, k: Key, order: seq<Id>, j: Key)
    requires Positive(s)
    ensures Positive(SinkReleaseAll(s, k, order))
    ensures OnlyHeldDrops(BudgetAt(s, j), BudgetAt(SinkReleaseAll(s, k, order), j))
  {
    if order != [] {
      var n := |order| - 1;
      SinkReleaseAllDrops(s, k, order[..n], j);
      var t, rid := SinkReleaseAll(s, k, order[..n]), order[n];
      if rid in t.records {
        EndHoldDrops(t, rid, k, t.records[rid].spanKey, t.records[rid].reserved, j);
      } else {
        EndHoldDrops(t, rid, k, None, 0.0, j);
      }
    }
  }

  ghost predicate Positive(s: State) {
    forall rid :: rid in s.records ==> s.records[rid].reserved > 0.0
  }

  /** A window, on one budget: the totals, the release, and the deduction. */
  lemma {:induction false} WindowBudget(s: State, w: nat, k: Key, cost: real, order: seq<Id>, j: Key)
    requires Positive(s) && w !in s.applied
    ensures
      var t, end := EndWindow(s, w, k, cost, order), SinkSpec(s, w, k, cost, order).0;
      && Positive(end)
      && OnlyHeldDrops(BudgetAt(Deduct(s, k, cost), j), BudgetAt(t, j))
      && BudgetAt(end, j) == (if j == k then Charge(BudgetAt(t, k), cost).0 else BudgetAt(t, j))
      && SinkSpec(s, w, k, cost, order).1 == Charge(BudgetAt(t, k), cost).1
  {
    var u := Deduct(s.(applied := s.applied + {w}), k, cost);
    SinkReleaseAllDrops(u, k, order, j);
    assert BudgetAt(u, j) == BudgetAt(Deduct(s, k, cost), j);
  }

  /** What a step other than a window, a top-up or a reconfiguration does to a budget. */
  lemma {:induction false} PlainStep(w: World, step: Step, k: Key)
    requires Positive(w.s) && !step.Window? && !step.TopUp? && !step.Configure?
    ensures Positive(Do(w, step).s)
    ensures
      var b, b' := BudgetAt(w.s, k), BudgetAt(Do(w, step).s, k);
      || OnlyHeldDrops(b, b')
      || (step.Open? && b.balance.Some? && b' == b.(held := b.held + step.r.reserved)
          && b.balance.value >= b'.held && step.r.reserved > 0.0)
  {
    match step
    case CloseScript(c) =>
      if c in w.closers {
        ClosePlainly(w.s, w.closers[c], k);
      }
    case Open(rid, r, deadline) => OpenPlainly(w.s, rid, r, deadline, k);
    case _ =>
  }

  lemma {:induction false} ClosePlainly(s: State, c: Closer, k: Key)
    requires Positive(s)
    ensures var t := CloseSpec(s, c.rid, c.key, c.span).0;
      Positive(t) && OnlyHeldDrops(BudgetAt(s, k), BudgetAt(t, k))
  {
    if c.rid in s.records {
      EndHoldDrops(s, c.rid, c.key, c.span, s.records[c.rid].reserved, k);
    }
  }

  lemma {:induction false} OpenPlainly(s: State, rid: Id, r: Record, deadline: int, k: Key)
    requires Positive(s)
    ensures
      var t := OpenSpec(s, rid, r, deadline).0;
      var b, b' := BudgetAt(s, k), BudgetAt(t, k);
      && Positive(t)
      && (OnlyHeldDrops(b, b') ||
          (b.balance.Some? && b' == b.(held := b.held + r.reserved) && b.balance.value >= b'.held && r.reserved > 0.0))
  {
    if OpenSpec(s, rid, r, deadline).1 == Opened {
      assert BudgetAt(OpenSpec(s, rid, r, deadline).0, k) == BudgetAt(AddHeld(s, r.heldKey, r.reserved), k);
    }
  }

  /** A budget that covers what is held of it. */
  ghost predicate Covers(b: Budget) {
    b.held >= 0.0 && if b.balance.Some? then b.balance.value >= b.held else b.held == 0.0
  }

  /** A charge of at most what was released just before leaves the balance above what is held, and no debt. */
  lemma {:induction false} CoveredCharge(b: Budget, released: Budget, cost: real)
    requires Covers(b) && OnlyHeldDrops(b, released) && cost <= b.held - released.held
    ensures Covers(Charge(released, cost).0) && Charge(released, cost).0.debt == b.debt
  {
    if released.balance.Some? {
      assert released.balance.value - cost >= released.held;
    }
  }

  lemma {:induction false} SolventWindow(s: State, w: nat, k: Key, cost: real, order: seq<Id>, j: Key)
    requires Positive(s) && Solvent(s) && w !in s.applied && Covered(s, Window(w, k, cost, order))
    ensures var end := SinkSpec(s, w, k, cost, order).0;
      Positive(end) && Covers(BudgetAt(end, j)) && BudgetAt(end, j).debt == BudgetAt(s, j).debt
  {
    WindowBudget(s, w, k, cost, order, j);
    assert Covers(BudgetAt(s, j)) && Covers(BudgetAt(Deduct(s, k, cost), j));
    if j == k {
      CoveredCharge(BudgetAt(Deduct(s, k, cost), k), BudgetAt(EndWindow(s, w, k, cost, order), k), cost);
    }
  }

  lemma {:induction false} SolventPlainStep(w: World, step: Step, k: Key)
    requires Positive(w.s) && Solvent(w.s) && !step.Window? && !step.TopUp? && !step.Configure?
    ensures Positive(Do(w, step).s) && Covers(BudgetAt(Do(w, step).s, k))
    ensures BudgetAt(Do(w, step).s, k).debt == BudgetAt(w.s, k).debt
  {
    PlainStep(w, step, k);
    assert Covers(BudgetAt(w.s, k));
  }

  lemma {:induction false} SolventTopUp(s: State, j: Key, amount: real, k: Key)
    requires Positive(s) && Solvent(s)
    ensures var t := Applied(s, TopUpSpec(s, j, amount));
      Positive(t) && Covers(BudgetAt(t, k)) && BudgetAt(t, k).debt == BudgetAt(s, k).debt
  {
    assert Covers(BudgetAt(s, k));
  }

  lemma {:induction false} SolventConfigure(s: State, j: Key, balance: real, threshold: Option<real>, k: Key)
    requires Positive(s) && Solvent(s)
    ensures var t := Applied(s, ConfigureSpec(s, j, balance, threshold));
      && Positive(t) && Covers(BudgetAt(t, k))
      && (BudgetAt(t, k).debt == BudgetAt(s, k).debt || BudgetAt(t, k).debt == 0.0)
  {
    assert Covers(BudgetAt(s, k));
  }

  lemma {:induction false} SolventBudget(w: World, step: Step, k: Key)
    requires Positive(w.s) && Solvent(w.s) && Covered(w.s, step)
    ensures Positive(Do(w, step).s) && Covers(BudgetAt(Do(w, step).s, k))
    ensures BudgetAt(Do(w, step).s, k).debt <= BudgetAt(w.s, k).debt
            || (step.Configure? && BudgetAt(Do(w, step).s, k).debt == 0.0)
  {
    match step
    case Window(win, j, cost, order) =>
      assert Covers(BudgetAt(w.s, k));
      if win !in w.s.applied {
        SolventWindow(w.s, win, j, cost, order, k);
      }
    case TopUp(j, amount) => SolventTopUp(w.s, j, amount, k);
    case Configure(j, balance, threshold) => SolventConfigure(w.s, j, balance, threshold, k);
    case _ => SolventPlainStep(w, step, k);
  }

  lemma {:induction false} SolventStep(w: World, step: Step)
    requires Positive(w.s) && Solvent(w.s) && Covered(w.s, step)
    ensures Positive(Do(w, step).s) && Solvent(Do(w, step).s)
    ensures forall k: Key :: BudgetAt(Do(w, step).s, k).debt <= BudgetAt(w.s, k).debt
                             || (step.Configure? && BudgetAt(Do(w, step).s, k).debt == 0.0)
  {
    forall k: Key
      ensures Covers(BudgetAt(Do(w, step).s, k))
      ensures BudgetAt(Do(w, step).s, k).debt <= BudgetAt(w.s, k).debt
              || (step.Configure? && BudgetAt(Do(w, step).s, k).debt == 0.0)
    {
      SolventBudget(w, step, k);
    }
    SolventBudget(w, step, 0);
  }

  /**
   If every applied window costs at most what it releases, then in every reachable state each balance
   covers what is held of it and no debt was added, whatever else runs in between and with whatever keys.
   */
  lemma {:induction false} CoveredRunsNeverOverspend(w: World, steps: seq<Step>)
    requires Positive(w.s) && Solvent(w.s) && CoveredRun(w, steps)
    ensures Positive(Run(w, steps).s) && Solvent(Run(w, steps).s)
    ensures forall k: Key ::
              || BudgetAt(Run(w, steps).s, k).debt <= BudgetAt(w.s, k).debt
              || BudgetAt(Run(w, steps).s, k).debt <= 0.0
  {
    if steps != [] {
      CoveredRunsNeverOverspend(w, steps[..|steps| - 1]);
      SolventStep(Run(w, steps[..|steps| - 1]), steps[|steps| - 1]);
    }
  }

  /** The amounts of the open holds among `order`. */
  ghost function ReservedIn(s: State, order: seq<Id>): real {
    if order == [] then 0.0
    else
      var rid := order[|order| - 1];
      ReservedIn(s, order[..|order| - 1]) + if rid in s.records then s.records[rid].reserved else 0.0
  }

  /** What a window releases: the full amounts of its open holds. */
  lemma {:induction false} WindowReleasesItsHolds(s: State, reset: set<Key>, w: nat, k: Key, cost: real, order: seq<Id>)
    requires Balanced(s, reset) && k !in reset && w !in s.applied
    requires Lists(order, Attached(s, w)) && OwnHolds(s, k, order)
    ensures BudgetAt(s, k).held - BudgetAt(EndWindow(s, w, k, cost, order), k).held == ReservedIn(s, order)
    ensures Covered(s, Window(w, k, cost, order)) <==> cost <= ReservedIn(s, order)
  {
    var t := Deduct(s.(applied := s.applied + {w}), k, cost);
    SameBudgets(s, t, reset);
    ReleasesItsHolds(t, reset, k, order);
    SameReserved(s, t, order);
  }

  lemma {:induction false} SameReserved(s: State, t: State, order: seq<Id>)
    requires s.records == t.records
    ensures ReservedIn(s, order) == ReservedIn(t, order)
  {
    if order != [] {
      SameReserved(s, t, order[..|order| - 1]);
    }
  }

  lemma {:induction false} ReleasesItsHolds(s: State, reset: set<Key>, k: Key, order: seq<Id>)
    requires Balanced(s, reset) && k !in reset && OwnHolds(s, k, order)
    requires forall i, j :: 0 <= i < j < |order| ==> order[i] != order[j]
    ensures BudgetAt(s, k).held - BudgetAt(SinkReleaseAll(s, k, order), k).held == ReservedIn(s, order)
  {
    if order != [] {
      var n := |order| - 1;
      var before, rid := SinkReleaseAll(s, k, order[..n]), order[n];
      assert OwnHolds(s, k, order[..n]);
      ReleasesItsHolds(s, reset, k, order[..n]);
      SinkReleaseAllBalanced(s, reset, k, order[..n]);
      SinkReleaseRecords(s, k, order[..n]);
      assert rid !in order[..n] && rid in order;
      assert Backed(before, k, reset);
      if rid in s.records {
        EndHoldBalanced(before, reset, rid, s.records[rid].spanKey);
        EndHoldBudget(before, rid, k, s.records[rid].spanKey, s.records[rid].reserved, k);
      } else {
        EndHoldBudget(before, rid, k, None, 0.0, k);
      }
    }
  }

  /** Every applied window costs at most the open holds attached to it, of a budget not reconfigured over open ones. */
  ghost predicate PaidFor(w: World, step: Step) {
    step.Window? && step.w !in w.s.applied ==> step.k !in w.reset && step.cost <= ReservedIn(w.s, step.order)
  }

  ghost predicate PaidForRun(w: World, steps: seq<Step>) {
    steps == [] || (PaidForRun(w, steps[..|steps| - 1]) && PaidFor(Run(w, steps[..|steps| - 1]), steps[|steps| - 1]))
  }

  /** No overspend: windows paid for by their reservations leave every balance above what is held, and no debt. */
  lemma {:induction false} ReservedWindowsNeverOverspend(steps: seq<Step>, k: Key)
    requires ProperRun(EMPTY, steps) && PaidForRun(EMPTY, steps)
    ensures var b := BudgetAt(Run(EMPTY, steps).s, k);
      0.0 <= b.held && (b.balance.Some? ==> b.held <= b.balance.value) && b.debt <= 0.0
  {
    PaidRunsAreCovered(steps);
    CoveredRunsNeverOverspend(EMPTY, steps);
  }

  lemma {:induction false} PaidRunsAreCovered(steps: seq<Step>)
    requires ProperRun(EMPTY, steps) && PaidForRun(EMPTY, steps)
    ensures CoveredRun(EMPTY, steps)
  {
    if steps != [] {
      var before, step := steps[..|steps| - 1], steps[|steps| - 1];
      PaidRunsAreCovered(before);
      RunIsBalanced(before);
      var w := Run(EMPTY, before);
      if step.Window? && step.w !in w.s.applied {
        WindowReleasesItsHolds(w.s, w.reset, step.w, step.k, step.cost, step.order);
      }
    }
  }

  // ---------- attachments and refreshes ----------

  /** An attached hold ends with its window, unless the window was applied before: then nothing of it ends. */
  lemma {:induction false} AttachedHoldsEndWithTheirWindow(
    s: State, w: nat, rid: Id, k: Key, cost: real, order: seq<Id>)
    requires rid in s.records && Lists(order, Attached(AttachSpec(s, w, rid), w))
    ensures var t := SinkSpec(AttachSpec(s, w, rid), w, k, cost, order).0;
      && (rid !in t.records <==> w !in s.applied)
      && (w in s.applied ==> t == AttachSpec(s, w, rid) && t.records == s.records && t.budgets == s.budgets)
  {
    var a := AttachSpec(s, w, rid);
    if w !in s.applied {
      SinkReleaseRecords(Deduct(a.(applied := a.applied + {w}), k, cost), k, order);
      assert rid in order;
    }
  }

  /** The ids whose deadline has come: ZRANGEBYSCORE 0 now. */
  function Due(s: State, now: int): set<Id> {
    set rid | rid in s.pending && 0 <= s.pending[rid] <= now
  }

  /**
   A refresh decides when its id comes due and touches no other. When the hold ended since the exists
   check, the entry it leaves is swept by the next expiry, which then releases and reports nothing.
   */
  lemma {:induction false} RefreshMovesTheDeadline(s: State, rid: Id, deadline: int, now: int, default: Key)
    ensures var t := RefreshSpec(s, rid, deadline);
      && (rid in Due(t, now) <==> 0 <= deadline <= now)
      && Due(t, now) - {rid} == Due(s, now) - {rid}
      && (rid !in s.records ==> Settle(t, rid, default) == (s.(pending := s.pending - {rid}), Nothing))
  {
    var t := RefreshSpec(s, rid, deadline);
    assert t.pending - {rid} == s.pending - {rid};
    assert rid !in s.records ==> Settle(t, rid, default).0 == s.(pending := s.pending - {rid});
  }

  // ---------- exactly when a run conserves ----------

  /** What conserves: the guards a caller can check before the step. */
  ghost predicate Conserving(w: World, step: Step) {
    match step
    case CloseScript(c) => c in w.closers ==> OwnKey(w.s, w.closers[c])
    case Window(win, k, _, order) => win in w.s.applied || OwnHolds(w.s, k, order)
    case Configure(k, balance, threshold) =>
      ConfigureSpec(w.s, k, balance, threshold).Ok? ==> OpenUnder(w.s.records, k) == map[]
    case _ => true
  }

  lemma {:induction false} ConservedIsBalanced(s: State)
    ensures Recorded(s) ==> (Balanced(s, {}) <==> Conserved(s))
  {
    if Recorded(s) {
      forall k: Key
        ensures Backed(s, k, {}) <==> BudgetAt(s, k).held == OpenSum(s, k)
      {
        OpenSumNonNegative(s, k);
      }
      if Balanced(s, {}) {
        assert forall k: Key :: Backed(s, k, {});
      }
    }
  }

  lemma {:induction false} RecordedStep(w: World, step: Step)
    requires Recorded(w.s)
    ensures Recorded(Do(w, step).s)
  {
    match step
    case Window(win, k, cost, order) => WindowRecorded(w.s, win, k, cost, order);
    case Open(rid, r, deadline) => OpenRecorded(w.s, rid, r, deadline);
    case CloseScript(c) =>
      if c in w.closers {
        CloseRecorded(w.s, w.closers[c]);
      }
    case _ =>
  }

  lemma {:induction false} CloseRecorded(s: State, c: Closer)
    requires Recorded(s)
    ensures Recorded(CloseSpec(s, c.rid, c.key, c.span).0)
  {
  }

  lemma {:induction false} WindowRecorded(s: State, w: nat, k: Key, cost: real, order: seq<Id>)
    requires Recorded(s)
    ensures Recorded(SinkSpec(s, w, k, cost, order).0)
  {
    if w !in s.applied {
      SinkReleaseRecorded(Deduct(s.(applied := s.applied + {w}), k, cost), k, order);
    }
  }

  lemma {:induction false} OpenRecorded(s: State, rid: Id, r: Record, deadline: int)
    requires Recorded(s)
    ensures Recorded(OpenSpec(s, rid, r, deadline).0)
  {
    var t := OpenSpec(s, rid, r, deadline).0;
    assert t == s || (t.records == s.records[rid := r] && t.pending == s.pending[rid := deadline] && r.reserved > 0.0);
  }

  lemma {:induction false} SinkReleaseRecorded(s: State, k: Key, order: seq<Id>)
    requires Recorded(s)
    ensures Recorded(SinkReleaseAll(s, k, order))
  {
    if order != [] {
      SinkReleaseRecorded(s, k, order[..|order| - 1]);
    }
  }

  lemma {:induction false} ConfigureConservesExactlyOverNothing(
    s: State, k: Key, balance: real, threshold: Option<real>)
    requires Balanced(s, {}) && ConfigureSpec(s, k, balance, threshold).Ok?
    ensures Conserved(ConfigureSpec(s, k, balance, threshold).value) <==> OpenUnder(s.records, k) == map[]
  {
    var t := ConfigureSpec(s, k, balance, threshold).value;
    forall j: Key
      ensures j != k ==> BudgetAt(t, j).held == OpenSum(t, j)
      ensures j == k ==> BudgetAt(t, j).held == 0.0 && OpenSum(t, j) == OpenSum(s, k)
    {
      assert Backed(s, j, {});
    }
    OpenSumNonNegative(s, k);
    if OpenUnder(s.records, k) != map[] {
      var rid :| rid in OpenUnder(s.records, k);
      SumSplit(OpenUnder(s.records, k), rid);
      SumNonNegative(OpenUnder(s.records, k) - {rid});
      assert OpenSum(t, k) > 0.0;
    }
  }

  /** From a conserved state a step conserves exactly when it is a conserving one. */
  lemma {:induction false} StepConservesExactlyWhen(w: World, step: Step)
    requires Balanced(w.s, {})
    ensures Conserved(Do(w, step).s) <==> Conserving(w, step)
  {
    match step
    case CloseScript(c) =>
      ConservedIsBalanced(w.s);
      if c in w.closers {
        CloseConservesExactlyWhenKeysMatch(w.s, w.closers[c].rid, w.closers[c].key, w.closers[c].span);
      }
    case Window(win, k, cost, order) =>
      ConservedIsBalanced(w.s);
      if win !in w.s.applied {
        SinkConservesExactlyWhenHoldsAreItsOwn(w.s, win, k, cost, order);
      }
    case Configure(k, balance, threshold) =>
      ConservedIsBalanced(w.s);
      if ConfigureSpec(w.s, k, balance, threshold).Ok? {
        ConfigureConservesExactlyOverNothing(w.s, k, balance, threshold);
      }
    case _ =>
      ActIsBalanced(w.(reset := {}), step);
      ConservedIsBalanced(Do(w, step).s);
  }

  /** Every step of the run is a conserving one. */
  ghost predicate ConservingRun(steps: seq<Step>) {
    steps == [] ||
    (ConservingRun(steps[..|steps| - 1]) && Conserving(Run(EMPTY, steps[..|steps| - 1]), steps[|steps| - 1]))
  }

  /** Held is what is open in the state before every step and in the last one. */
  ghost predicate ConservedThroughout(steps: seq<Step>) {
    Conserved(Run(EMPTY, steps).s) && (steps == [] || ConservedThroughout(steps[..|steps| - 1]))
  }

  /** Held is what is open throughout a run exactly when every step of it is a conserving one. */
  lemma {:induction false} RunsConserveExactlyWhenEveryStepDoes(steps: seq<Step>)
    ensures Recorded(Run(EMPTY, steps).s)
    ensures ConservedThroughout(steps) <==> ConservingRun(steps)
  {
    if steps == [] {
      StartIsBalanced();
      ConservedIsBalanced(START);
    } else {
      var before, step := steps[..|steps| - 1], steps[|steps| - 1];
      RunsConserveExactlyWhenEveryStepDoes(before);
      RecordedStep(Run(EMPTY, before), step);
      if ConservedThroughout(before) {
        ConservedIsBalanced(Run(EMPTY, before).s);
        StepConservesExactlyWhen(Run(EMPTY, before), step);
      }
    }
  }

  /** The race that breaks it: a close reads before the open, and its script comes after. */
  lemma {:induction false} EarlyReadsLoseTheHold()
    ensures
      var start := World(START.(budgets := map[1 := NO_BUDGET_KEYS.(balance := Some(10.0))]), map[], map[], {});
      var r := Record(1, 0, 4.0, 1, None);
      var w := Do(Do(Do(Do(start, ReadHeldKey(0, 7, 2)), ReadSpanKey(0)), Open(7, r, 900)), CloseScript(0));
      BudgetAt(w.s, 1).held == 4.0 && w.s.records == map[] && OpenSum(w.s, 1) == 0.0
  {
    var start := World(START.(budgets := map[1 := NO_BUDGET_KEYS.(balance := Some(10.0))]), map[], map[], {});
    var r := Record(1, 0, 4.0, 1, None);
    var held4 := Do(Do(Do(start, ReadHeldKey(0, 7, 2)), ReadSpanKey(0)), Open(7, r, 900));
    assert held4.s.records == map[7 := r] && held4.closers == map[0 := Closer(7, 2, None)];
    var w := Do(held4, CloseScript(0));
    assert w.s.records == map[] && OpenUnder(w.s.records, 1) == map[];
  }
}

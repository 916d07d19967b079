/** What the cap of a span limits: no open takes a capped span above it, over whole runs (api/reservation.py). */
module SpanCaps {
  import opened Prelude
  import opened BudgetLedger
  import opened BudgetConservation

  /** What is spent and held under a capped span is within its cap. */
  predicate Within(span: Span) {
    span.cap.Some? ==> span.spent + span.held <= span.cap.value
  }

  /** Whatever the state: an open that takes effect under a capped span leaves it within its cap. */
  lemma {:induction false} OpenedIsWithinTheCap(s: State, rid: Id, r: Record, deadline: int, p: Key)
    ensures
      var (t, answer) := OpenSpec(s, rid, r, deadline);
      && SpanAt(t, p).cap == SpanAt(s, p).cap && SpanAt(t, p).spent == SpanAt(s, p).spent
      && (SpanAt(t, p) != SpanAt(s, p) ==>
            answer == Opened && r.spanKey == Some(p) && SpanAt(s, p).cap.Some?
            && SpanAt(t, p).held == SpanAt(s, p).held + r.reserved)
      && (answer == Opened && r.spanKey == Some(p) ==> Within(SpanAt(t, p)))
  {
    OpenAnswers(s, rid, r, deadline);
  }

  // ---------- ends of holds ----------

  /** No budget holds less than nothing, and every open hold is of something. */
  ghost predicate Sane(s: State) {
    Positive(s) && forall k: Key :: BudgetAt(s, k).held >= 0.0
  }

  /** Only what is held changes, and only downwards, never below nothing. */
  predicate Drops(span: Span, span': Span) {
    span' == span.(held := span'.held) && span'.held <= span.held && (span.held >= 0.0 ==> span'.held >= 0.0)
  }

  lemma {:induction false} EndHoldLowersSpans(s: State, rid: Id, k: Key, span: Option<Key>, reserved: real, p: Key)
    requires Sane(s) && reserved >= 0.0
    ensures Drops(SpanAt(s, p), SpanAt(EndHold(s, rid, k, span, reserved), p))
  {
    assert BudgetAt(s, k).held >= 0.0;
    assert ReleaseHeld(s, k, reserved).spans == s.spans;
  }

  lemma {:induction false} EndHoldIsSane(s: State, rid: Id, k: Key, span: Option<Key>, reserved: real)
    requires Sane(s) && reserved >= 0.0
    ensures Sane(EndHold(s, rid, k, span, reserved))
  {
    forall j: Key
      ensures BudgetAt(EndHold(s, rid, k, span, reserved), j).held >= 0.0
    {
      assert BudgetAt(s, j).held >= 0.0;
      EndHoldDrops(s, rid, k, span, reserved, j);
    }
  }

  lemma {:induction false} CloseLowersSpans(s: State, c: Closer, p: Key)
    requires Sane(s)
    ensures Drops(SpanAt(s, p), SpanAt(CloseSpec(s, c.rid, c.key, c.span).0, p))
  {
    if c.rid in s.records {
      EndHoldLowersSpans(s, c.rid, c.key, c.span, s.records[c.rid].reserved, p);
    }
  }

  lemma {:induction false} ReleasesLowerSpans(s: State, k: Key, order: seq<Id>, p: Key)
    requires Sane(s)
    ensures Sane(SinkReleaseAll(s, k, order))
    ensures Drops(SpanAt(s, p), SpanAt(SinkReleaseAll(s, k, order), p))
  {
    if order != [] {
      var n := |order| - 1;
      ReleasesLowerSpans(s, k, order[..n], p);
      var t, rid := SinkReleaseAll(s, k, order[..n]), order[n];
      var span, reserved := if rid in t.records then t.records[rid].spanKey else None,
                            if rid in t.records then t.records[rid].reserved else 0.0;
      EndHoldLowersSpans(t, rid, k, span, reserved, p);
      EndHoldIsSane(t, rid, k, span, reserved);
    }
  }

  lemma {:induction false} WindowLowersSpans(s: State, w: nat, k: Key, cost: real, order: seq<Id>, p: Key)
    requires Sane(s)
    ensures Drops(SpanAt(s, p), SpanAt(SinkSpec(s, w, k, cost, order).0, p))
  {
    if w !in s.applied {
      var t := Deduct(s.(applied := s.applied + {w}), k, cost);
      forall j: Key
        ensures BudgetAt(t, j).held >= 0.0
      {
        assert BudgetAt(s, j).held >= 0.0;
      }
      ReleasesLowerSpans(t, k, order, p);
      assert SpanAt(SinkSpec(s, w, k, cost, order).0, p) == SpanAt(SinkReleaseAll(t, k, order), p);
    }
  }

  // ---------- runs ----------

  lemma {:induction false} HeldBudgets(s: State, step: Step, k: Key)
    requires BudgetAt(s, k).held >= 0.0
    ensures step.TopUp? ==> BudgetAt(Applied(s, TopUpSpec(s, step.k, step.amount)), k).held >= 0.0
    ensures step.Configure? ==>
      BudgetAt(Applied(s, ConfigureSpec(s, step.k, step.balance, step.threshold)), k).held >= 0.0
  {
  }

  lemma {:induction false} HeldStep(w: World, step: Step, k: Key)
    requires Positive(w.s) && BudgetAt(w.s, k).held >= 0.0
    ensures BudgetAt(Do(w, step).s, k).held >= 0.0
  {
    if step.Window? {
      if step.w !in w.s.applied {
        WindowBudget(w.s, step.w, step.k, step.cost, step.order, k);
      }
    } else if step.TopUp? || step.Configure? {
      HeldBudgets(w.s, step, k);
    } else {
      PlainStep(w, step, k);
    }
  }

  lemma {:induction false} PositiveStep(w: World, step: Step)
    requires Positive(w.s)
    ensures Positive(Do(w, step).s)
  {
    if step.Window? {
      if step.w !in w.s.applied {
        WindowBudget(w.s, step.w, step.k, step.cost, step.order, step.k);
      }
    } else if !step.TopUp? && !step.Configure? {
      PlainStep(w, step, 0);
    }
  }

  lemma {:induction false} SaneStep(w: World, step: Step)
    requires Sane(w.s)
    ensures Sane(Do(w, step).s)
  {
    PositiveStep(w, step);
    forall k: Key
      ensures BudgetAt(Do(w, step).s, k).held >= 0.0
    {
      assert BudgetAt(w.s, k).held >= 0.0;
      HeldStep(w, step, k);
    }
  }

  lemma {:induction false} SaneAlways(steps: seq<Step>)
    ensures Sane(Run(EMPTY, steps).s)
  {
    if steps != [] {
      SaneAlways(steps[..|steps| - 1]);
      SaneStep(Run(EMPTY, steps[..|steps| - 1]), steps[|steps| - 1]);
    }
  }

  /** A step books costs on the span, or changes its cap, and leaves it above the cap. */
  predicate Overdraws(w: World, step: Step, p: Key) {
    step.SpanChanges? && step.p == p && step.cap.Some? && step.spent + SpanAt(w.s, p).held > step.cap.value
  }

  lemma {:induction false} StepKeepsWithin(w: World, step: Step, p: Key)
    requires Sane(w.s) && Within(SpanAt(w.s, p))
    ensures Within(SpanAt(Do(w, step).s, p)) <==> !Overdraws(w, step, p)
  {
    match step
    case Open(rid, r, deadline) => OpenedIsWithinTheCap(w.s, rid, r, deadline, p);
    case CloseScript(c) =>
      if c in w.closers {
        CloseLowersSpans(w.s, w.closers[c], p);
      }
    case Window(win, k, cost, order) => WindowLowersSpans(w.s, win, k, cost, order, p);
    case _ =>
  }

  /** The span is within its cap in the state before every step and in the last one. */
  ghost predicate WithinThroughout(steps: seq<Step>, p: Key) {
    Within(SpanAt(Run(EMPTY, steps).s, p)) && (steps == [] || WithinThroughout(steps[..|steps| - 1], p))
  }

  ghost predicate NeverOverdrawn(steps: seq<Step>, p: Key) {
    steps == [] ||
    (NeverOverdrawn(steps[..|steps| - 1], p)
     && !Overdraws(Run(EMPTY, steps[..|steps| - 1]), steps[|steps| - 1], p))
  }

  /**
   Over whole runs, with any keys, replays and interleavings, a span stays within its cap exactly when no cost
   booked on it and no new cap leaves it above: opens, closes and windows never take it there.
   */
  lemma {:induction false} CapsHoldExactlyWhen(steps: seq<Step>, p: Key)
    ensures WithinThroughout(steps, p) <==> NeverOverdrawn(steps, p)
  {
    if steps != [] {
      var before := steps[..|steps| - 1];
      CapsHoldExactlyWhen(before, p);
      if WithinThroughout(before, p) {
        SaneAlways(before);
        StepKeepsWithin(Run(EMPTY, before), steps[|steps| - 1], p);
      }
    }
  }
}

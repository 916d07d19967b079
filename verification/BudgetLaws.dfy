/**
 What runs of the budget scripts say about money already spent: the ledger law behind the
 reconciliation job, alerts that fire once, and what a capped span holds.
 */
module BudgetLaws {
  import opened Prelude
  import opened BudgetLedger
  import opened BudgetConservation

  // ---------- the ledger law ----------

  /** What a configured budget has left, less its debt, is what came in less what was deducted. */
  ghost predicate Lawful(b: Budget) {
    b.balance.Some? ==>
      && b.initial.Some? && b.balance.value >= 0.0 && b.debt >= 0.0
      && b.balance.value - b.debt == b.initial.value + b.topups - b.deducted
  }

  ghost predicate Costs(steps: seq<Step>) {
    forall i :: 0 <= i < |steps| && steps[i].Window? ==> steps[i].cost >= 0.0
  }

  lemma {:induction false} ChargeIsLawful(b: Budget, cost: real)
    requires cost >= 0.0 && Lawful(b.(deducted := b.deducted - cost))
    ensures Lawful(Charge(b, cost).0)
  {
  }

  lemma {:induction false} LawfulWindow(s: State, w: nat, k: Key, cost: real, order: seq<Id>, j: Key)
    requires Positive(s) && Lawful(BudgetAt(s, j)) && cost >= 0.0 && w !in s.applied
    ensures Positive(SinkSpec(s, w, k, cost, order).0) && Lawful(BudgetAt(SinkSpec(s, w, k, cost, order).0, j))
  {
    WindowBudget(s, w, k, cost, order, j);
    if j == k {
      ChargeIsLawful(BudgetAt(EndWindow(s, w, k, cost, order), k), cost);
    }
  }

  lemma {:induction false} LawfulPlainStep(w: World, step: Step, k: Key)
    requires Positive(w.s) && Lawful(BudgetAt(w.s, k)) && !step.Window? && !step.TopUp? && !step.Configure?
    ensures Positive(Do(w, step).s) && Lawful(BudgetAt(Do(w, step).s, k))
  {
    PlainStep(w, step, k);
  }

  lemma {:induction false} LawfulTopUp(s: State, j: Key, amount: real, k: Key)
    requires Positive(s) && Lawful(BudgetAt(s, k))
    ensures var t := Applied(s, TopUpSpec(s, j, amount)); Positive(t) && Lawful(BudgetAt(t, k))
  {
  }

  lemma {:induction false} LawfulConfigure(s: State, j: Key, balance: real, threshold: Option<real>, k: Key)
    requires Positive(s) && Lawful(BudgetAt(s, k))
    ensures var t := Applied(s, ConfigureSpec(s, j, balance, threshold)); Positive(t) && Lawful(BudgetAt(t, k))
  {
  }

  lemma {:induction false} LawfulStep(w: World, step: Step, k: Key)
    requires Positive(w.s) && Lawful(BudgetAt(w.s, k)) && (step.Window? ==> step.cost >= 0.0)
    ensures Positive(Do(w, step).s) && Lawful(BudgetAt(Do(w, step).s, k))
  {
    match step
    case Window(win, j, cost, order) =>
      if win !in w.s.applied {
        LawfulWindow(w.s, win, j, cost, order, k);
      }
    case TopUp(j, amount) => LawfulTopUp(w.s, j, amount, k);
    case Configure(j, balance, threshold) => LawfulConfigure(w.s, j, balance, threshold, k);
    case _ => LawfulPlainStep(w, step, k);
  }

  /** The law holds of every budget after every run, with any keys, replays and interleavings. */
  lemma {:induction false} LedgerLaw(steps: seq<Step>, k: Key)
    requires Costs(steps)
    ensures Positive(Run(EMPTY, steps).s) && Lawful(BudgetAt(Run(EMPTY, steps).s, k))
  {
    if steps != [] {
      LedgerLaw(steps[..|steps| - 1], k);
      LawfulStep(Run(EMPTY, steps[..|steps| - 1]), steps[|steps| - 1], k);
    }
  }

  /** One drift in numbers: the balance of the key, and the totals and the debt of the id parsed from it. */
  lemma {:induction false} DriftInNumbers(s: State, k: Key, head: Key)
    ensures
      var d, b, totals := DriftAt(s, k, head), BudgetAt(s, k), BudgetAt(s, head);
      && d.customer == head && d.debt == totals.debt && d.drift == d.balance - d.expected
      && (b.balance.Some? ==> d.balance == b.balance.value)
      && (totals.initial.Some? ==> d.expected == totals.initial.value + totals.topups - totals.deducted)
  {
  }

  /** The key drifts by more than the tolerance, up or down, and `d` says so. */
  predicate Drifting(s: State, k: Key, head: Key -> Key, tolerance: real, d: Drift) {
    d == DriftAt(s, k, head(k)) && (d.drift > tolerance || -d.drift > tolerance)
  }

  /** In any state, what is listed is each scanned key that drifts by more than the tolerance, up or down. */
  lemma {:induction false} DriftsBothWays(s: State, keys: seq<Key>, head: Key -> Key, tolerance: real, d: Drift)
    ensures d in Drifts(s, keys, head, tolerance) <==> exists k :: k in keys && Drifting(s, k, head, tolerance, d)
  {
    if keys != [] {
      var n := |keys| - 1;
      DriftsBothWays(s, keys[..n], head, tolerance, d);
      LastDrift(s, keys, head, tolerance, d);
      if k :| k in keys && Drifting(s, k, head, tolerance, d) {
        assert k in keys[..n] || k == keys[n];
      }
      if k :| k in keys[..n] && Drifting(s, k, head, tolerance, d) {
        assert k in keys;
      }
    }
  }

  lemma {:induction false} LastDrift(s: State, keys: seq<Key>, head: Key -> Key, tolerance: real, d: Drift)
    requires keys != []
    ensures d in Drifts(s, keys, head, tolerance) <==>
      d in Drifts(s, keys[..|keys| - 1], head, tolerance) || Drifting(s, keys[|keys| - 1], head, tolerance, d)
  {
  }

  /** The drift the job computes is the debt, when the id it parses from the key is the whole id. */
  lemma {:induction false} DriftIsDebt(steps: seq<Step>, k: Key)
    requires Costs(steps) && BudgetAt(Run(EMPTY, steps).s, k).balance.Some?
    ensures var s := Run(EMPTY, steps).s; DriftAt(s, k, k).drift == BudgetAt(s, k).debt >= 0.0
  {
    LedgerLaw(steps, k);
  }

  /** With `head` for the totals, the drift of `k` is its debt in every run that configured `k`. */
  ghost predicate DriftsByDebt(k: Key, head: Key) {
    forall steps: seq<Step> :: Costs(steps) && BudgetAt(Run(EMPTY, steps).s, k).balance.Some? ==>
      DriftAt(Run(EMPTY, steps).s, k, head).drift == BudgetAt(Run(EMPTY, steps).s, k).debt
  }

  /** The drift is the debt in all runs exactly when the id parsed from the key is the whole id. */
  lemma {:induction false} DriftIsDebtExactlyForWholeIds(k: Key, head: Key)
    ensures DriftsByDebt(k, head) <==> head == k
  {
    if head == k {
      forall steps: seq<Step> | Costs(steps) && BudgetAt(Run(EMPTY, steps).s, k).balance.Some?
        ensures DriftAt(Run(EMPTY, steps).s, k, head).drift == BudgetAt(Run(EMPTY, steps).s, k).debt
      {
        DriftIsDebt(steps, k);
      }
    } else {
      var steps := [Configure(k, 5.0, None)];
      assert steps[..0] == [] && Run(EMPTY, []) == EMPTY;
      assert Run(EMPTY, steps) == Do(EMPTY, Configure(k, 5.0, None));
      assert DriftAt(Run(EMPTY, steps).s, k, head).drift == 5.0 && BudgetAt(Run(EMPTY, steps).s, k).debt == 0.0;
    }
  }

  /**
   After any run, the job finds a budget exactly when it has no tenant and its debt exceeds the
   tolerance, each with its debt as the drift, provided the ids without a tenant have no colon.
   */
  lemma {:induction false} TheJobFindsTheUntenantedDebtors(
    steps: seq<Step>, keys: seq<Key>, plain: Key -> bool, head: Key -> Key, tolerance: real, k: Key)
    requires Costs(steps) && tolerance >= 0.0 && forall j :: plain(j) ==> head(j) == j
    requires forall j :: j in keys <==> j in Scanned(Run(EMPTY, steps).s, plain)
    ensures
      var s := Run(EMPTY, steps).s;
      var drifts := Drifts(s, keys, head, tolerance);
      && ((exists d :: d in drifts && d.customer == k) <==>
            plain(k) && BudgetAt(s, k).balance.Some? && BudgetAt(s, k).debt > tolerance)
      && (forall d :: d in drifts ==> d.drift == d.debt == BudgetAt(s, d.customer).debt)
  {
    DriftsAreTheDebtors(steps, keys, head, tolerance);
  }

  /** A budget without tenant that owes more than the tolerance. */
  ghost predicate Debtor(s: State, plain: Key -> bool, tolerance: real, k: Key) {
    plain(k) && BudgetAt(s, k).balance.Some? && BudgetAt(s, k).debt > tolerance
  }

  ghost predicate Names(drifts: seq<Drift>, k: Key) {
    exists d :: d in drifts && d.customer == k
  }

  lemma {:induction false} DriftsAreApart(s: State, keys: seq<Key>, head: Key -> Key, tolerance: real)
    requires forall i, j :: 0 <= i < j < |keys| ==> keys[i] != keys[j]
    requires forall k :: k in keys ==> head(k) == k
    ensures var drifts := Drifts(s, keys, head, tolerance);
      && (forall d :: d in drifts ==> d.customer in keys)
      && forall i, j :: 0 <= i < j < |drifts| ==> drifts[i].customer != drifts[j].customer
  {
    if keys != [] {
      var n := |keys| - 1;
      DriftsAreApart(s, keys[..n], head, tolerance);
      assert keys == keys[..n] + [keys[n]] && keys[n] !in keys[..n];
      var before := Drifts(s, keys[..n], head, tolerance);
      assert forall i :: 0 <= i < |before| ==> before[i] in before;
    }
  }

  /** Its result lists only debtors, and all of them exactly when it found at most a hundred. */
  lemma {:induction false} TheJobListsAllDebtorsExactlyWhen(
    steps: seq<Step>, keys: seq<Key>, plain: Key -> bool, head: Key -> Key, tolerance: real)
    requires Costs(steps) && tolerance >= 0.0 && forall j :: plain(j) ==> head(j) == j
    requires forall j :: j in keys <==> j in Scanned(Run(EMPTY, steps).s, plain)
    requires forall i, j :: 0 <= i < j < |keys| ==> keys[i] != keys[j]
    ensures
      var s := Run(EMPTY, steps).s;
      var drifts := Drifts(s, keys, head, tolerance);
      && (forall k: Key :: Names(Listed(drifts), k) ==> Debtor(s, plain, tolerance, k))
      && ((forall k: Key :: Debtor(s, plain, tolerance, k) ==> Names(Listed(drifts), k)) <==> |drifts| <= 100)
  {
    var s := Run(EMPTY, steps).s;
    var drifts := Drifts(s, keys, head, tolerance);
    forall k: Key
      ensures Names(drifts, k) <==> Debtor(s, plain, tolerance, k)
    {
      TheJobFindsTheUntenantedDebtors(steps, keys, plain, head, tolerance, k);
    }
    forall k: Key | Names(Listed(drifts), k)
      ensures Names(drifts, k)
    {
      var d :| d in Listed(drifts) && d.customer == k;
      assert d in drifts;
    }
    if |drifts| > 100 {
      DriftsAreApart(s, keys, head, tolerance);
      NotListed(drifts);
      assert Debtor(s, plain, tolerance, drifts[100].customer);
    }
  }

  lemma {:induction false} NotListed(drifts: seq<Drift>)
    requires |drifts| > 100
    requires forall i, j :: 0 <= i < j < |drifts| ==> drifts[i].customer != drifts[j].customer
    ensures Names(drifts, drifts[100].customer) && !Names(Listed(drifts), drifts[100].customer)
  {
    assert drifts[100] in drifts;
  }

  lemma {:induction false} DriftsAreTheDebtors(steps: seq<Step>, keys: seq<Key>, head: Key -> Key, tolerance: real)
    requires Costs(steps)
    requires forall j :: j in keys ==> BudgetAt(Run(EMPTY, steps).s, j).balance.Some? && head(j) == j
    ensures
      var s := Run(EMPTY, steps).s;
      var drifts := Drifts(s, keys, head, tolerance);
      && (forall k: Key ::
            (exists d :: d in drifts && d.customer == k) <==> k in keys && BudgetAt(s, k).debt > tolerance)
      && (forall d :: d in drifts ==> d.drift == d.debt == BudgetAt(s, d.customer).debt)
  {
    if keys != [] {
      var n := |keys| - 1;
      DriftsAreTheDebtors(steps, keys[..n], head, tolerance);
      assert keys == keys[..n] + [keys[n]];
      DriftIsDebt(steps, keys[n]);
      var s := Run(EMPTY, steps).s;
      var before, drifts := Drifts(s, keys[..n], head, tolerance), Drifts(s, keys, head, tolerance);
      var d := DriftAt(s, keys[n], keys[n]);
      assert drifts == before + if d.debt > tolerance then [d] else [];
      assert forall x :: x in drifts <==> x in before || (x == d && d.debt > tolerance);
      forall k: Key
        ensures (exists x :: x in drifts && x.customer == k) <==> k in keys && BudgetAt(s, k).debt > tolerance
      {
        if k == keys[n] && d.debt > tolerance {
          assert d in drifts;
        } else if x :| x in before && x.customer == k {
          assert x in drifts;
        }
      }
    }
  }

  // ---------- alerts ----------

  /** What the step alerts of budget `k`. */
  function StepAlerts(w: World, step: Step, k: Key): seq<Alert> {
    if step.Window? && step.k == k
    then AlertsOf(SinkSpec(w.s, step.w, k, step.cost, step.order).1, BudgetAt(Do(w, step).s, k)) else []
  }

  function Alerts(w: World, steps: seq<Step>, k: Key): seq<Alert> {
    if steps == [] then []
    else
      var before := steps[..|steps| - 1];
      Alerts(w, before, k) + StepAlerts(Run(w, before), steps[|steps| - 1], k)
  }

  lemma {:induction false} AlertsAddUp(w: World, steps: seq<Step>, k: Key, a: Alert)
    requires steps != []
    ensures var before := steps[..|steps| - 1]; var more := StepAlerts(Run(w, before), steps[|steps| - 1], k);
      && Alerts(w, steps, k) == Alerts(w, before, k) + more
      && multiset(Alerts(w, steps, k))[a] == multiset(Alerts(w, before, k))[a] + multiset(more)[a]
  {
  }

  /** No top-up and no reconfiguration of the budget. */
  ghost predicate Quiet(steps: seq<Step>, k: Key) {
    forall i :: 0 <= i < |steps| ==>
      (steps[i].TopUp? ==> steps[i].k != k) && (steps[i].Configure? ==> steps[i].k != k)
  }

  ghost predicate QuietStep(step: Step, k: Key) {
    (step.TopUp? ==> step.k != k) && (step.Configure? ==> step.k != k) && (step.Window? ==> step.cost >= 0.0)
  }

  ghost predicate Lower(b: Budget, b': Budget) {
    && b'.initial == b.initial && b'.threshold == b.threshold && b'.balance.Some? == b.balance.Some?
    && (b.balance.Some? && b.balance.value >= 0.0 ==> 0.0 <= b'.balance.value <= b.balance.value)
  }

  /** Between top-ups a balance only falls, and its levels stay. */
  lemma {:induction false} QuietStepLowers(w: World, step: Step, k: Key)
    requires Positive(w.s) && QuietStep(step, k)
    ensures Positive(Do(w, step).s) && Lower(BudgetAt(w.s, k), BudgetAt(Do(w, step).s, k))
  {
    if step.Window? {
      if step.w !in w.s.applied {
        WindowBudget(w.s, step.w, step.k, step.cost, step.order, k);
      }
    } else if !step.TopUp? && !step.Configure? {
      PlainStep(w, step, k);
    }
  }

  /** The window is no replay: it is charged to `k`. */
  predicate Fresh(w: World, step: Step, k: Key) {
    step.Window? && step.k == k && step.w !in w.s.applied
  }

  /** What a step alerts of `k`: what one charge of the budget as its holds have left it does. */
  lemma {:induction false} AlertsOfCharge(w: World, step: Step, k: Key) returns (b: Budget)
    requires Positive(w.s) && Fresh(w, step, k)
    ensures BudgetAt(Do(w, step).s, k) == Charge(b, step.cost).0
    ensures
      var was := BudgetAt(w.s, k); b == was.(held := b.held, deducted := was.deducted + step.cost)
    ensures StepAlerts(w, step, k) == AlertsOf(Charge(b, step.cost).1, Charge(b, step.cost).0)
  {
    b := BudgetAt(EndWindow(w.s, step.w, k, step.cost, step.order), k);
    WindowBudget(w.s, step.w, k, step.cost, step.order, k);
    assert Do(w, step).s == SinkSpec(w.s, step.w, k, step.cost, step.order).0;
  }

  lemma {:induction false} NoAlertsOtherwise(w: World, step: Step, k: Key)
    requires !Fresh(w, step, k)
    ensures StepAlerts(w, step, k) == []
  {
  }

  /** An alert is raised at most once by a step, and only when the balance crosses its level. */
  lemma {:induction false} AlertsCross(w: World, step: Step, k: Key, a: Alert)
    requires Positive(w.s) && QuietStep(step, k) && a != NoneLeft
    ensures multiset(StepAlerts(w, step, k))[a] <= 1
    ensures a in StepAlerts(w, step, k) ==>
      var b, b' := BudgetAt(w.s, k), BudgetAt(Do(w, step).s, k);
      b.balance.Some? && b'.balance.Some? && b'.balance.value <= Level(a, b') < b.balance.value
  {
    if Fresh(w, step, k) {
      var b := AlertsOfCharge(w, step, k);
      ChargeAlerts(b, step.cost, a);
    } else {
      NoAlertsOtherwise(w, step, k);
    }
  }

  lemma {:induction false} ChargeAlerts(b: Budget, cost: real, a: Alert)
    requires a != NoneLeft
    ensures var (b', o) := Charge(b, cost);
      && multiset(AlertsOf(o, b'))[a] <= 1
      && (a in AlertsOf(o, b') ==>
            b.balance.Some? && b'.balance.Some? && b'.balance.value <= Level(a, b') < b.balance.value)
  {
    var (b', o) := Charge(b, cost);
    if o.Charged? {
      OneOfEach(o, b', a);
    }
  }

  lemma {:induction false} OneOfEach(o: Outcome, b: Budget, a: Alert)
    requires o.Charged?
    ensures multiset(AlertsOf(o, b))[a] <= 1
    ensures a in AlertsOf(o, b) ==>
      match a
      case LowBalance => o.status == Low
      case NoneLeft => o.status == Exhausted
      case _ => b.initial.Some? && o.after <= Level(a, b) < o.before
  {
    DistinctParts(WarnPart(Warn70, o, b), WarnPart(Warn90, o, b), StatusPart(o), a);
  }

  lemma {:induction false} DistinctParts(x: seq<Alert>, y: seq<Alert>, z: seq<Alert>, a: Alert)
    requires (x == [] || x == [Warn70]) && (y == [] || y == [Warn90])
    requires z == [] || z == [LowBalance] || z == [NoneLeft]
    ensures multiset(x + y + z)[a] <= 1
    ensures a in x + y + z <==> a in x || a in y || a in z
  {
    assert multiset(x + y + z) == multiset(x) + multiset(y) + multiset(z);
  }

  /** A step after which the balance is no higher, with the alerts before and of the step. */
  lemma {:induction false} StillOnce(b0: Budget, b: Budget, b': Budget, fired: nat, more: nat, a: Alert)
    requires Lower(b0, b) && Lower(b, b') && fired <= 1 && more <= 1
    requires b0.balance.Some? ==> b0.balance.value >= 0.0
    requires fired > 0 ==> b.balance.Some? && b.balance.value <= Level(a, b)
    requires more > 0 ==> b.balance.Some? && b'.balance.Some? && b'.balance.value <= Level(a, b') < b.balance.value
    ensures fired + more <= 1 && Lower(b0, b')
    ensures fired + more > 0 ==> b'.balance.Some? && b'.balance.value <= Level(a, b')
  {
    assert Level(a, b) == Level(a, b');
  }

  /**
   Between two top-ups or reconfigurations of a budget, the low-balance alert and the 70 and 90 percent
   warnings fire at most once each.
   */
  lemma {:induction false} AlertsFireOnce(w: World, steps: seq<Step>, k: Key, a: Alert)
    requires Positive(w.s) && (BudgetAt(w.s, k).balance.Some? ==> BudgetAt(w.s, k).balance.value >= 0.0)
    requires Quiet(steps, k) && Costs(steps) && a != NoneLeft
    ensures multiset(Alerts(w, steps, k))[a] <= 1
    ensures Positive(Run(w, steps).s) && Lower(BudgetAt(w.s, k), BudgetAt(Run(w, steps).s, k))
    ensures a in Alerts(w, steps, k) ==>
      var b := BudgetAt(Run(w, steps).s, k); b.balance.Some? && b.balance.value <= Level(a, b)
  {
    if steps != [] {
      var before, step := steps[..|steps| - 1], steps[|steps| - 1];
      var here := Run(w, before);
      QuietBefore(steps, k);
      AlertsFireOnce(w, before, k, a);
      QuietStepLowers(here, step, k);
      AlertsCross(here, step, k, a);
      AlertsAddUp(w, steps, k, a);
      StillOnce(BudgetAt(w.s, k), BudgetAt(here.s, k), BudgetAt(Run(w, steps).s, k),
                multiset(Alerts(w, before, k))[a], multiset(StepAlerts(here, step, k))[a], a);
    }
  }

  lemma {:induction false} QuietBefore(steps: seq<Step>, k: Key)
    requires steps != [] && Quiet(steps, k) && Costs(steps)
    ensures Quiet(steps[..|steps| - 1], k) && Costs(steps[..|steps| - 1]) && QuietStep(steps[|steps| - 1], k)
  {
    var before := steps[..|steps| - 1];
    assert forall i :: 0 <= i < |before| ==> before[i] == steps[i];
  }

  /**
   What a window that is no replay does to its budget, and exactly which alerts it raises: the low-balance alert
   when the balance falls to or below the threshold (its own, else a tenth of the initial balance) from above it
   and something is left; the warnings when it falls to or below 30 and 10 percent of an initial balance from
   above; and that nothing is left. Without a balance there is nothing to charge, and no alert.
   */
  lemma {:induction false} AlertsFireExactlyWhen(w: World, step: Step, k: Key)
    requires Positive(w.s) && Fresh(w, step, k)
    ensures
      var b, b', fired := BudgetAt(w.s, k), BudgetAt(Do(w, step).s, k), StepAlerts(w, step, k);
      && b'.deducted == b.deducted + step.cost && b'.initial == b.initial && b'.threshold == b.threshold
      && b'.topups == b.topups
      && if b.balance == None then fired == [] && b'.balance == None && b'.debt == b.debt
         else
           var before, initial := b.balance.value, if b.initial.Some? then b.initial.value else 0.0;
           var threshold := if b.threshold.Some? then b.threshold.value else initial / 10.0;
           var after := if step.cost <= before then before - step.cost else 0.0;
           && b'.balance == Some(after)
           && b'.debt == b.debt + (if step.cost <= before then 0.0 else step.cost - before)
           && (LowBalance in fired <==> 0.0 < after <= threshold < before)
           && (Warn70 in fired <==> b.initial.Some? && after <= 3.0 * initial / 10.0 < before)
           && (Warn90 in fired <==> b.initial.Some? && after <= initial / 10.0 < before)
           && (NoneLeft in fired <==> step.cost >= before)
  {
    var b := AlertsOfCharge(w, step, k);
    ChargeIs(b, step.cost);
    var (b', o) := Charge(b, step.cost);
    if o.Charged? {
      ChargeFires(o, b');
    }
  }

  lemma {:induction false} ChargeFires(o: Outcome, b: Budget)
    requires o.Charged?
    ensures
      var fired, initial := AlertsOf(o, b), if b.initial.Some? then b.initial.value else 0.0;
      && (LowBalance in fired <==> o.status == Low)
      && (Warn70 in fired <==> b.initial.Some? && o.after <= 3.0 * initial / 10.0 < o.before)
      && (Warn90 in fired <==> b.initial.Some? && o.after <= initial / 10.0 < o.before)
      && (NoneLeft in fired <==> o.status == Exhausted)
  {
    var x, y, z := WarnPart(Warn70, o, b), WarnPart(Warn90, o, b), StatusPart(o);
    DistinctParts(x, y, z, LowBalance);
    DistinctParts(x, y, z, Warn70);
    DistinctParts(x, y, z, Warn90);
    DistinctParts(x, y, z, NoneLeft);
  }

  /** The window is not a replay, and charges a configured budget. */
  ghost predicate Charges(w: World, step: Step, k: Key) {
    Fresh(w, step, k) && BudgetAt(w.s, k).balance.Some?
  }

  /** Running out is reported exactly by the windows that charge a budget and leave it nothing. */
  lemma {:induction false} NoneLeftExactlyWhenNothingIsLeft(w: World, step: Step, k: Key)
    requires Positive(w.s) && QuietStep(step, k)
    requires BudgetAt(w.s, k).balance.Some? ==> BudgetAt(w.s, k).balance.value >= 0.0
    ensures multiset(StepAlerts(w, step, k))[NoneLeft] ==
      if Charges(w, step, k) && BudgetAt(Do(w, step).s, k).balance == Some(0.0) then 1 else 0
  {
    if Fresh(w, step, k) {
      var b := AlertsOfCharge(w, step, k);
      NoneLeftOnce(b, step.cost);
    } else {
      NoAlertsOtherwise(w, step, k);
    }
  }

  lemma {:induction false} NoneLeftOnce(b: Budget, cost: real)
    requires b.balance.Some? ==> b.balance.value >= 0.0
    ensures var (b', o) := Charge(b, cost);
      multiset(AlertsOf(o, b'))[NoneLeft] == if b.balance.Some? && b'.balance == Some(0.0) then 1 else 0
  {
    var (b', o) := Charge(b, cost);
    if o.Charged? {
      DistinctParts(WarnPart(Warn70, o, b'), WarnPart(Warn90, o, b'), StatusPart(o), NoneLeft);
    }
  }

  /** The windows of a run that charge the budget. */
  ghost function ChargesIn(w: World, steps: seq<Step>, k: Key): nat {
    if steps == [] then 0
    else
      var before := steps[..|steps| - 1];
      ChargesIn(w, before, k) + if Charges(Run(w, before), steps[|steps| - 1], k) then 1 else 0
  }

  lemma {:induction false} ExhaustedStep(w: World, step: Step, k: Key)
    requires Positive(w.s) && BudgetAt(w.s, k).balance == Some(0.0) && QuietStep(step, k)
    ensures multiset(StepAlerts(w, step, k))[NoneLeft] == if Charges(w, step, k) then 1 else 0
    ensures Positive(Do(w, step).s) && BudgetAt(Do(w, step).s, k).balance == Some(0.0)
  {
    QuietStepLowers(w, step, k);
    NoneLeftExactlyWhenNothingIsLeft(w, step, k);
  }

  /** So once a budget ran out, every window reports it again until a top-up or reconfiguration. */
  lemma {:induction false} ExhaustedIsReportedByEveryWindow(w: World, steps: seq<Step>, k: Key)
    requires Positive(w.s) && BudgetAt(w.s, k).balance == Some(0.0) && Quiet(steps, k) && Costs(steps)
    ensures multiset(Alerts(w, steps, k))[NoneLeft] == ChargesIn(w, steps, k)
    ensures Positive(Run(w, steps).s) && BudgetAt(Run(w, steps).s, k).balance == Some(0.0)
  {
    if steps != [] {
      var before, step := steps[..|steps| - 1], steps[|steps| - 1];
      assert forall i :: 0 <= i < |before| ==> before[i] == steps[i];
      ExhaustedIsReportedByEveryWindow(w, before, k);
      ExhaustedStep(Run(w, before), step, k);
      AlertsAddUp(w, steps, k, NoneLeft);
    }
  }

  // ---------- capped spans ----------

  /** The open holds under a span, with their amounts. */
  function OpenInSpan(records: map<Id, Record>, p: Key): map<Id, real> {
    map rid | rid in records && records[rid].spanKey == Some(p) :: records[rid].reserved
  }

  /** A capped span holds what is open under it; a span without a cap counts nothing. */
  ghost predicate SpanBacked(s: State, p: Key) {
    SpanAt(s, p).held == if SpanAt(s, p).cap.Some? then Sum(OpenInSpan(s.records, p)) else 0.0
  }

  ghost predicate SpansBacked(s: State) {
    forall p: Key :: SpanBacked(s, p)
  }

  lemma {:induction false} SpanSumAdd(records: map<Id, Record>, rid: Id, r: Record, p: Key)
    requires rid !in records
    ensures Sum(OpenInSpan(records[rid := r], p))
         == Sum(OpenInSpan(records, p)) + if r.spanKey == Some(p) then r.reserved else 0.0
  {
    if r.spanKey == Some(p) {
      assert OpenInSpan(records[rid := r], p) == OpenInSpan(records, p)[rid := r.reserved];
      SumAdd(OpenInSpan(records, p), rid, r.reserved);
    } else {
      assert OpenInSpan(records[rid := r], p) == OpenInSpan(records, p);
    }
  }

  lemma {:induction false} SpanSumRemove(records: map<Id, Record>, rid: Id, p: Key)
    requires rid in records && forall r :: r in records ==> records[r].reserved > 0.0
    ensures Sum(OpenInSpan(records - {rid}, p))
         == Sum(OpenInSpan(records, p)) - if records[rid].spanKey == Some(p) then records[rid].reserved else 0.0
    ensures Sum(OpenInSpan(records - {rid}, p)) >= 0.0
  {
    SumNonNegative(OpenInSpan(records - {rid}, p));
    if records[rid].spanKey == Some(p) {
      SumSplit(OpenInSpan(records, p), rid);
      assert OpenInSpan(records - {rid}, p) == OpenInSpan(records, p) - {rid};
    } else {
      assert OpenInSpan(records - {rid}, p) == OpenInSpan(records, p);
    }
  }

  /** The end of a hold keeps its capped span backed exactly when all it reserved comes off the budget. */
  lemma {:induction false} EndHoldKeepsItsSpanExactlyInFull(s: State, rid: Id, k: Key, p: Key)
    requires Recorded(s) && rid in s.records && s.records[rid].spanKey == Some(p)
    requires SpanBacked(s, p) && SpanAt(s, p).cap.Some?
    ensures SpanBacked(EndHold(s, rid, k, Some(p), s.records[rid].reserved), p) <==>
      Released(s, k, s.records[rid].reserved) == s.records[rid].reserved
  {
    SpanSumRemove(s.records, rid, p);
  }

  /** A hold that comes off its budget in full comes off its span in full, and touches no other span. */
  lemma {:induction false} EndHoldSpans(s: State, rid: Id)
    requires Balanced(s, {}) && SpansBacked(s) && rid in s.records
    ensures var r := s.records[rid]; SpansBacked(EndHold(s, rid, r.heldKey, r.spanKey, r.reserved))
  {
    CloseKeepsSpansExactlyWhen(s, rid, s.records[rid].spanKey);
  }

  /** The span a close takes something off: none, unless something is held under the one it was given. */
  function Effective(s: State, span: Option<Key>): Option<Key> {
    if span.Some? && SpanAt(s, span.value).held > 0.0 then span else None
  }

  /** One span when a hold ends that comes off its budget in full. */
  lemma {:induction false} EndHoldSpan(s: State, rid: Id, span: Option<Key>, p: Key)
    requires Balanced(s, {}) && SpansBacked(s) && rid in s.records
    ensures
      var r := s.records[rid];
      var t := EndHold(s, rid, r.heldKey, span, r.reserved);
      && SpanAt(t, p).cap == SpanAt(s, p).cap
      && SpanAt(t, p).held ==
           SpanAt(s, p).held - (if Effective(s, span) == Some(p) then Min(SpanAt(s, p).held, r.reserved) else 0.0)
      && Sum(OpenInSpan(t.records, p)) ==
           Sum(OpenInSpan(s.records, p)) - (if r.spanKey == Some(p) then r.reserved else 0.0) >= 0.0
  {
    EndHoldBalanced(s, {}, rid, span);
    SpanSumRemove(s.records, rid, p);
  }

  /** A close with its own held key keeps the spans backed exactly when it takes off its own span. */
  lemma {:induction false} CloseKeepsSpansExactlyWhen(s: State, rid: Id, span: Option<Key>)
    requires Balanced(s, {}) && SpansBacked(s) && rid in s.records
    ensures
      var r := s.records[rid];
      SpansBacked(EndHold(s, rid, r.heldKey, span, r.reserved)) <==> Effective(s, span) == Effective(s, r.spanKey)
  {
    var r := s.records[rid];
    var t := EndHold(s, rid, r.heldKey, span, r.reserved);
    if Effective(s, span) == Effective(s, r.spanKey) {
      forall p: Key
        ensures SpanBacked(t, p)
      {
        assert SpanBacked(s, p);
        EndHoldSpan(s, rid, span, p);
      }
    } else {
      var p := if Effective(s, span).Some? then span.value else r.spanKey.value;
      assert SpanBacked(s, p);
      EndHoldSpan(s, rid, span, p);
      assert !SpanBacked(t, p);
    }
  }

  lemma {:induction false} SameSpans(s: State, t: State)
    requires SpansBacked(s) && t.records == s.records && t.spans == s.spans
    ensures SpansBacked(t)
  {
    forall p: Key
      ensures SpanBacked(t, p)
    {
      assert SpanBacked(s, p);
    }
  }

  lemma {:induction false} SinkReleaseAllSpans(s: State, k: Key, order: seq<Id>)
    requires Balanced(s, {}) && SpansBacked(s) && OwnHolds(s, k, order)
    ensures SpansBacked(SinkReleaseAll(s, k, order))
  {
    if order != [] {
      var n := |order| - 1;
      var before, rid := SinkReleaseAll(s, k, order[..n]), order[n];
      assert OwnHolds(s, k, order[..n]) && rid in order;
      SinkReleaseAllSpans(s, k, order[..n]);
      SinkReleaseAllBalanced(s, {}, k, order[..n]);
      SinkReleaseRecords(s, k, order[..n]);
      if rid in before.records {
        EndHoldSpans(before, rid);
      } else {
        SameSpans(before, SinkRelease(before, k, rid));
      }
    }
  }

  lemma {:induction false} OpenSpans(s: State, rid: Id, r: Record, deadline: int)
    requires SpansBacked(s)
    ensures SpansBacked(OpenSpec(s, rid, r, deadline).0)
  {
    var t := OpenSpec(s, rid, r, deadline).0;
    if OpenSpec(s, rid, r, deadline).1 == Opened {
      forall p: Key
        ensures SpanBacked(t, p)
      {
        assert SpanBacked(s, p);
        SpanSumAdd(s.records, rid, r, p);
      }
    }
  }

  /** A cap is set or dropped only while nothing is open under the span. */
  ghost predicate CapSettled(s: State, step: Step) {
    step.SpanChanges? ==>
      step.cap.Some? == SpanAt(s, step.p).cap.Some? || OpenInSpan(s.records, step.p) == map[]
  }

  /** A close takes off the span of the record it finds. */
  ghost predicate OwnSpan(w: World, step: Step) {
    step.CloseScript? && step.closer in w.closers && w.closers[step.closer].rid in w.s.records ==>
      Effective(w.s, w.closers[step.closer].span) == Effective(w.s, w.s.records[w.closers[step.closer].rid].spanKey)
  }

  ghost predicate SpanSafe(w: World, step: Step) {
    CapSettled(w.s, step) && OwnSpan(w, step)
  }

  ghost predicate SpanSafeRun(w: World, steps: seq<Step>) {
    steps == [] ||
    (SpanSafeRun(w, steps[..|steps| - 1]) && SpanSafe(Run(w, steps[..|steps| - 1]), steps[|steps| - 1]))
  }

  lemma {:induction false} SpansStep(w: World, step: Step)
    requires Balanced(w.s, {}) && Conserving(w, step) && SpansBacked(w.s)
    ensures SpansBacked(Do(w, step).s) <==> SpanSafe(w, step)
  {
    match step
    case Open(rid, r, deadline) => OpenSpans(w.s, rid, r, deadline);
    case CloseScript(c) => CloseSpans(w, c);
    case Window(win, k, cost, order) =>
      if win !in w.s.applied {
        WindowSpans(w.s, win, k, cost, order);
      }
    case SpanChanges(p, spent, cap) => SpanChangeKeepsBackingExactlyWhenSettled(w, p, spent, cap);
    case _ => SameSpans(w.s, Do(w, step).s);
  }

  lemma {:induction false} CloseSpans(w: World, c: nat)
    requires Balanced(w.s, {}) && Conserving(w, CloseScript(c)) && SpansBacked(w.s)
    ensures SpansBacked(Do(w, CloseScript(c)).s) <==> OwnSpan(w, CloseScript(c))
  {
    if c in w.closers && w.closers[c].rid in w.s.records {
      CloseKeepsSpansExactlyWhen(w.s, w.closers[c].rid, w.closers[c].span);
    } else {
      SameSpans(w.s, Do(w, CloseScript(c)).s);
    }
  }

  lemma {:induction false} WindowSpans(s: State, w: nat, k: Key, cost: real, order: seq<Id>)
    requires Balanced(s, {}) && SpansBacked(s) && OwnHolds(s, k, order) && w !in s.applied
    ensures SpansBacked(SinkSpec(s, w, k, cost, order).0)
  {
    var t := Deduct(s.(applied := s.applied + {w}), k, cost);
    SameBudgets(s, t, {});
    SameSpans(s, t);
    SinkReleaseAllSpans(t, k, order);
    SameSpans(SinkReleaseAll(t, k, order), SinkSpec(s, w, k, cost, order).0);
  }

  /** Setting or dropping a cap keeps the spans backed exactly when nothing is open under it. */
  lemma {:induction false} SpanChangeKeepsBackingExactlyWhenSettled(w: World, p: Key, spent: real, cap: Option<real>)
    requires SpansBacked(w.s) && Recorded(w.s)
    ensures SpansBacked(Do(w, SpanChanges(p, spent, cap)).s) <==> CapSettled(w.s, SpanChanges(p, spent, cap))
  {
    var t := Do(w, SpanChanges(p, spent, cap)).s;
    var open := OpenInSpan(w.s.records, p);
    forall q: Key
      ensures q != p ==> SpanBacked(t, q)
      ensures SpanBacked(t, p) <==> CapSettled(w.s, SpanChanges(p, spent, cap))
    {
      assert SpanBacked(w.s, q) && SpanBacked(w.s, p);
      if open != map[] {
        var rid :| rid in open;
        SumSplit(open, rid);
        SumNonNegative(open - {rid});
      }
    }
    assert SpansBacked(t) ==> SpanBacked(t, p);
  }

  /** Every capped span holds what is open under it, in the state before every step and in the last one. */
  ghost predicate SpansBackedThroughout(steps: seq<Step>) {
    SpansBacked(Run(EMPTY, steps).s) && (steps == [] || SpansBackedThroughout(steps[..|steps| - 1]))
  }

  lemma {:induction false} StartSpansAreBacked()
    ensures SpansBacked(START)
  {
    forall p: Key
      ensures SpanBacked(START, p)
    {
      assert OpenInSpan(START.records, p) == map[];
    }
  }

  /**
   Budgets and capped spans hold exactly what is open under them throughout a run exactly when every step
   conserves its budget, sets or drops caps only while nothing is open under them, and closes on its own span.
   */
  lemma {:induction false} SpansHoldWhatIsOpenExactlyWhen(steps: seq<Step>)
    ensures ConservedThroughout(steps) && SpansBackedThroughout(steps) <==>
            ConservingRun(steps) && SpanSafeRun(EMPTY, steps)
  {
    RunsConserveExactlyWhenEveryStepDoes(steps);
    if steps == [] {
      StartSpansAreBacked();
    } else {
      var before, step := steps[..|steps| - 1], steps[|steps| - 1];
      SpansHoldWhatIsOpenExactlyWhen(before);
      RunsConserveExactlyWhenEveryStepDoes(before);
      if ConservingRun(steps) && SpansBackedThroughout(before) {
        ConservedIsBalanced(Run(EMPTY, before).s);
        SpansStep(Run(EMPTY, before), step);
      }
    }
  }
}

/**
 Prepaid budgets and reservations in Redis: the scripts of api/reservation.py, the budget part of
 BudgetEnforcerSink.java, configure and top_up of api/budget.py, and jobs/reconcile_balances.py.

 Money is exact. A budget key stands for `budget:{customer}` with its tenant prefix, a span key for
 `span:{id}`; `State` is what the scripts read and write, a class `Ledger` performs them.
 */
module BudgetLedger {
  import opened Prelude

  type Key = nat
  type Id = nat

  /** The keys under one budget prefix; a counter that was never written reads as zero. */
  datatype Budget = Budget(
    balance: Option<real>, held: real, initial: Option<real>, threshold: Option<real>,
    debt: real, deducted: real, topups: real)

  datatype Span = Span(held: real, spent: real, cap: Option<real>)

  datatype Record = Record(customer: nat, tenant: nat, reserved: real, heldKey: Key, spanKey: Option<Key>)

  datatype State = State(
    budgets: map<Key, Budget>, spans: map<Key, Span>, records: map<Id, Record>,
    pending: map<Id, int>, windows: map<nat, set<Id>>, applied: set<nat>)

  const NO_BUDGET_KEYS := Budget(None, 0.0, None, None, 0.0, 0.0, 0.0)
  const NO_SPAN_KEYS := Span(0.0, 0.0, None)
  const START := State(map[], map[], map[], map[], map[], {})

  function BudgetAt(s: State, k: Key): Budget {
    if k in s.budgets then s.budgets[k] else NO_BUDGET_KEYS
  }

  function SpanAt(s: State, k: Key): Span {
    if k in s.spans then s.spans[k] else NO_SPAN_KEYS
  }

  function Min(a: real, b: real): real {
    if a <= b then a else b
  }

  // ---------- opening and closing holds ----------

  datatype OpenAnswer =
    Opened | Existing | ReservationConflict | NoBudget | InsufficientBalance | HierarchyReserve | Invalid

  predicate SameHold(r: Record, customer: nat, tenant: nat, estimate: real) {
    r.customer == customer && r.tenant == tenant && r.reserved == estimate
  }

  /** Why a hold that does not exist yet may not be opened. */
  function Refusal(b: Budget, span: Option<Span>, estimate: real): Option<OpenAnswer> {
    if b.balance == None then Some(NoBudget)
    else if b.balance.value - b.held < estimate then Some(InsufficientBalance)
    else if span.Some? && span.value.cap.Some? && span.value.spent + span.value.held + estimate > span.value.cap.value
    then Some(HierarchyReserve)
    else None
  }

  function SpanOf(s: State, span: Option<Key>): Option<Span> {
    if span == None then None else Some(SpanAt(s, span.value))
  }

  function AddHeld(s: State, k: Key, amount: real): State {
    s.(budgets := s.budgets[k := BudgetAt(s, k).(held := BudgetAt(s, k).held + amount)])
  }

  function AddSpanHeld(s: State, k: Key, amount: real): State {
    s.(spans := s.spans[k := SpanAt(s, k).(held := SpanAt(s, k).held + amount)])
  }

  /** A span only counts what is held under it when it has a cap. */
  function HoldInSpan(s: State, span: Option<Key>, estimate: real): State {
    if span.Some? && SpanAt(s, span.value).cap.Some? then AddSpanHeld(s, span.value, estimate) else s
  }

  function Enter(s: State, rid: Id, r: Record, deadline: int): State {
    s.(records := s.records[rid := r], pending := s.pending[rid := deadline])
  }

  function OpenSpec(s: State, rid: Id, r: Record, deadline: int): (State, OpenAnswer) {
    if r.reserved <= 0.0 then (s, Invalid)
    else if rid in s.records then
      (s, if SameHold(s.records[rid], r.customer, r.tenant, r.reserved) then Existing else ReservationConflict)
    else
      match Refusal(BudgetAt(s, r.heldKey), SpanOf(s, r.spanKey), r.reserved)
      case Some(no) => (s, no)
      case None =>
        (Enter(AddHeld(HoldInSpan(s, r.spanKey, r.reserved), r.heldKey, r.reserved), rid, r, deadline), Opened)
  }

  /** Has the hold's span a cap? */
  predicate Capped(s: State, r: Record) {
    r.spanKey.Some? && SpanAt(s, r.spanKey.value).cap.Some?
  }

  /** Would the hold take its span above the cap? */
  predicate AboveCap(s: State, r: Record) {
    Capped(s, r) &&
    var span := SpanAt(s, r.spanKey.value);
    span.spent + span.held + r.reserved > span.cap.value
  }

  /** Each answer of an open, with what must be there for it. */
  ghost predicate AnsweredOpen(s: State, rid: Id, r: Record, answer: OpenAnswer) {
    var b, positive, there := BudgetAt(s, r.heldKey), r.reserved > 0.0, rid in s.records;
    var same := there && s.records[rid].customer == r.customer && s.records[rid].tenant == r.tenant
                && s.records[rid].reserved == r.reserved;
    var enough := b.balance.Some? && b.balance.value - b.held >= r.reserved;
    && (answer == Invalid <==> !positive)
    && (answer == Existing <==> positive && same)
    && (answer == ReservationConflict <==> positive && there && !same)
    && (answer == NoBudget <==> positive && !there && b.balance == None)
    && (answer == InsufficientBalance <==> positive && !there && b.balance.Some? && !enough)
    && (answer == HierarchyReserve <==> positive && !there && enough && AboveCap(s, r))
    && (answer == Opened <==> positive && !there && enough && !AboveCap(s, r))
  }

  /** What an open leaves: nothing new unless it opened, then the amount held by the budget and a capped span. */
  ghost predicate LeftByOpen(s: State, rid: Id, r: Record, deadline: int, answer: OpenAnswer, t: State) {
    if answer != Opened then t == s
    else
      && t.records == s.records[rid := r] && t.pending == s.pending[rid := deadline]
      && t.windows == s.windows && t.applied == s.applied
      && (forall k: Key :: BudgetAt(t, k) ==
            var b := BudgetAt(s, k); if k == r.heldKey then b.(held := b.held + r.reserved) else b)
      && (forall p: Key :: SpanAt(t, p) ==
            var span := SpanAt(s, p);
            if Capped(s, r) && r.spanKey == Some(p) then span.(held := span.held + r.reserved) else span)
  }

  lemma {:induction false} OpenAnswers(s: State, rid: Id, r: Record, deadline: int)
    ensures
      var (t, answer) := OpenSpec(s, rid, r, deadline);
      AnsweredOpen(s, rid, r, answer) && LeftByOpen(s, rid, r, deadline, answer, t)
  {
  }

  /** What comes off a budget's held amount, and off the span's, when a hold ends. */
  function Released(s: State, k: Key, reserved: real): real {
    Min(BudgetAt(s, k).held, reserved)
  }

  function ReleaseHeld(s: State, k: Key, reserved: real): State {
    if Released(s, k, reserved) > 0.0 then AddHeld(s, k, -Released(s, k, reserved)) else s
  }

  function ReleaseSpan(s: State, span: Option<Key>, released: real): State {
    if span.Some? && SpanAt(s, span.value).held > 0.0
    then AddSpanHeld(s, span.value, -Min(SpanAt(s, span.value).held, released)) else s
  }

  function Forget(s: State, rid: Id): State {
    s.(records := s.records - {rid}, pending := s.pending - {rid})
  }

  /** A hold of `reserved` ends: it is taken off budget `k` and the span, and the record goes. */
  function EndHold(s: State, rid: Id, k: Key, span: Option<Key>, reserved: real): State {
    Forget(ReleaseSpan(ReleaseHeld(s, k, reserved), span, Released(s, k, reserved)), rid)
  }

  lemma {:induction false} HeldTakes(s: State, k: Key, reserved: real, j: Key)
    ensures
      var t, b, held := ReleaseHeld(s, k, reserved), BudgetAt(s, j), BudgetAt(s, k).held;
      var off := if held < reserved then held else reserved;
      t == s.(budgets := t.budgets) && BudgetAt(t, j) == if j == k && off > 0.0 then b.(held := held - off) else b
  {
  }

  lemma {:induction false} SpanTakes(s: State, span: Option<Key>, off: real, p: Key)
    ensures
      var t, sp := ReleaseSpan(s, span, off), SpanAt(s, p);
      && t == s.(spans := t.spans)
      && SpanAt(t, p) == if span == Some(p) && sp.held > 0.0
                         then sp.(held := if sp.held < off then 0.0 else sp.held - off) else sp
  {
  }

  /** The end of a hold in numbers: what is reserved and held comes off the budget, and at most that off the span. */
  lemma {:induction false} EndHoldTakes(
    s: State, rid: Id, k: Key, span: Option<Key>, reserved: real, j: Key, p: Key)
    ensures
      var t, b, sp := EndHold(s, rid, k, span, reserved), BudgetAt(s, j), SpanAt(s, p);
      var held := BudgetAt(s, k).held;
      var off := if held < reserved then held else reserved;
      && BudgetAt(t, j) == (if j == k && off > 0.0 then b.(held := held - off) else b)
      && SpanAt(t, p) == (if span == Some(p) && sp.held > 0.0
                          then sp.(held := if sp.held < off then 0.0 else sp.held - off) else sp)
      && t.records == s.records - {rid} && t.pending == s.pending - {rid}
      && t.windows == s.windows && t.applied == s.applied
  {
    HeldTakes(s, k, reserved, j);
    SpanTakes(ReleaseHeld(s, k, reserved), span, Released(s, k, reserved), p);
  }

  datatype Closed = Nothing | Closed(customer: nat, released: real)

  /** CLOSE_SCRIPT, with the held keys its caller read beforehand. */
  function CloseSpec(s: State, rid: Id, k: Key, span: Option<Key>): (State, Closed) {
    if rid !in s.records then (s.(pending := s.pending - {rid}), Nothing)
    else
      var r := s.records[rid];
      (EndHold(s, rid, k, span, r.reserved), Closed(r.customer, Released(s, k, r.reserved)))
  }

  /** A close says what came off the budget it was given, for the customer of the hold, if it was still open. */
  lemma {:induction false} CloseReports(s: State, rid: Id, k: Key, span: Option<Key>)
    ensures
      var (t, result) := CloseSpec(s, rid, k, span);
      var held := BudgetAt(s, k).held;
      && rid !in t.records && rid !in t.pending && (result == Nothing <==> rid !in s.records)
      && (rid in s.records ==>
            var r := s.records[rid]; result == Closed(r.customer, if held < r.reserved then held else r.reserved))
      && (rid !in s.records ==> t == s.(pending := t.pending))
  {
  }

  /** The keys _close reads before its script: the record's, or a default when there is none. */
  function KeysToClose(s: State, rid: Id, default: Key): (Key, Option<Key>) {
    if rid in s.records then (s.records[rid].heldKey, s.records[rid].spanKey) else (default, None)
  }

  function Settle(s: State, rid: Id, default: Key): (State, Closed) {
    var keys := KeysToClose(s, rid, default);
    CloseSpec(s, rid, keys.0, keys.1)
  }

  /** expire_due over a list of ids: the state it leaves, and an alert for each hold it ended. */
  function SettleAll(s: State, rids: seq<Id>, default: Key): (State, seq<(Id, Closed)>) {
    if rids == [] then (s, [])
    else
      var before := SettleAll(s, rids[..|rids| - 1], default);
      var rid := rids[|rids| - 1];
      var last := Settle(before.0, rid, default);
      (last.0, before.1 + if last.1 == Nothing then [] else [(rid, last.1)])
  }

  // ---------- the sink ----------

  /** One turn of the sink's loop over a window's reservations. */
  function SinkRelease(s: State, k: Key, rid: Id): State {
    if rid in s.records then EndHold(s, rid, k, s.records[rid].spanKey, s.records[rid].reserved)
    else EndHold(s, rid, k, None, 0.0)
  }

  function SinkReleaseAll(s: State, k: Key, rids: seq<Id>): State {
    if rids == [] then s
    else SinkRelease(SinkReleaseAll(s, k, rids[..|rids| - 1]), k, rids[|rids| - 1])
  }

  datatype Outcome = Skip | NoBalance | Charged(status: Status, after: real, before: real)

  datatype Status = Fine | Low | Exhausted

  const ALERT_SHARE: real := 0.1

  function ThresholdOf(b: Budget): real {
    if b.threshold.Some? then b.threshold.value
    else (if b.initial.Some? then b.initial.value else 0.0) * ALERT_SHARE
  }

  /** The deduction at the end of the sink script. */
  function Charge(b: Budget, cost: real): (Budget, Outcome) {
    if b.balance == None then (b, NoBalance)
    else
      var before := b.balance.value;
      var after := if before - cost < 0.0 then 0.0 else before - cost;
      var debt := if before - cost < 0.0 then b.debt + (cost - before) else b.debt;
      var charged := b.(balance := Some(after), debt := debt);
      var status :=
        if after <= 0.0 then Exhausted
        else if after <= ThresholdOf(b) && before > ThresholdOf(b) then Low
        else Fine;
      (charged, Charged(status, after, before))
  }

  /** The charge in numbers: the balance pays what it can, the debt the rest; the status is where it fell to. */
  ghost predicate ChargedAs(b: Budget, cost: real, b': Budget, o: Outcome) {
    if b.balance == None then o == NoBalance && b' == b
    else
      var before := b.balance.value;
      var initial := if b.initial.Some? then b.initial.value else 0.0;
      var threshold := if b.threshold.Some? then b.threshold.value else initial / 10.0;
      && o.Charged? && o.before == before && b'.balance == Some(o.after)
      && (if cost <= before then o.after == before - cost && b'.debt == b.debt
          else o.after == 0.0 && b'.debt == b.debt + (cost - before))
      && b' == b.(balance := b'.balance, debt := b'.debt)
      && (o.status == Exhausted <==> cost >= before)
      && (o.status == Low <==> cost < before && before - cost <= threshold < before)
  }

  lemma {:induction false} ChargeIs(b: Budget, cost: real)
    ensures ChargedAs(b, cost, Charge(b, cost).0, Charge(b, cost).1)
  {
  }

  function Deduct(s: State, k: Key, cost: real): State {
    s.(budgets := s.budgets[k := BudgetAt(s, k).(deducted := BudgetAt(s, k).deducted + cost)])
  }

  function Attached(s: State, w: nat): set<Id> {
    if w in s.windows then s.windows[w] else {}
  }

  /** `order` is how SMEMBERS happens to list a set. */
  ghost predicate Lists(order: seq<Id>, rids: set<Id>) {
    && (forall rid :: rid in rids <==> rid in order)
    && (forall i, j :: 0 <= i < j < |order| ==> order[i] != order[j])
  }

  /** The holds of a window end, and its set goes. */
  function EndWindow(s: State, w: nat, k: Key, cost: real, order: seq<Id>): State {
    var t := SinkReleaseAll(Deduct(s.(applied := s.applied + {w}), k, cost), k, order);
    t.(windows := t.windows - {w})
  }

  function SinkSpec(s: State, w: nat, k: Key, cost: real, order: seq<Id>): (State, Outcome) {
    if w in s.applied then (s, Skip)
    else
      var t := EndWindow(s, w, k, cost, order);
      var charge := Charge(BudgetAt(t, k), cost);
      (if charge.1 == NoBalance then t else t.(budgets := t.budgets[k := charge.0]), charge.1)
  }

  datatype Alert = Warn70 | Warn90 | LowBalance | NoneLeft

  /** The level an alert is about. */
  function Level(a: Alert, b: Budget): real {
    match a
    case Warn70 => (if b.initial.Some? then b.initial.value else 0.0) * (1.0 - 70.0 / 100.0)
    case Warn90 => (if b.initial.Some? then b.initial.value else 0.0) * (1.0 - 90.0 / 100.0)
    case LowBalance => ThresholdOf(b)
    case NoneLeft => 0.0
  }

  /** A warning, when the budget has an initial balance and its balance crosses the level. */
  function WarnPart(a: Alert, o: Outcome, b: Budget): seq<Alert>
    requires o.Charged?
  {
    if b.initial.Some? && o.before > Level(a, b) && o.after <= Level(a, b) then [a] else []
  }

  function StatusPart(o: Outcome): seq<Alert>
    requires o.Charged?
  {
    if o.status == Exhausted then [NoneLeft] else if o.status == Low then [LowBalance] else []
  }

  /** invoke(): the alerts a script result raises, given the budget it reads afterwards. */
  function AlertsOf(o: Outcome, b: Budget): seq<Alert> {
    if !o.Charged? then [] else WarnPart(Warn70, o, b) + WarnPart(Warn90, o, b) + StatusPart(o)
  }

  // ---------- the other writers ----------

  function AttachSpec(s: State, w: nat, rid: Id): State {
    s.(windows := s.windows[w := Attached(s, w) + {rid}])
  }

  /** The two writes of refresh, whatever happened since its exists check. */
  function RefreshSpec(s: State, rid: Id, deadline: int): State {
    s.(pending := s.pending[rid := deadline])
  }

  datatype BudgetError = InvalidBudget | BudgetNotFound

  function ConfigureSpec(s: State, k: Key, balance: real, threshold: Option<real>): Result<State, BudgetError> {
    if balance < 0.0 || (threshold.Some? && threshold.value < 0.0) then Err(InvalidBudget)
    else Ok(s.(budgets := s.budgets[k := Budget(Some(balance), 0.0, Some(balance), threshold, 0.0, 0.0, 0.0)]))
  }

  function TopUpSpec(s: State, k: Key, amount: real): Result<State, BudgetError> {
    var b := BudgetAt(s, k);
    if amount <= 0.0 then Err(InvalidBudget)
    else if b.balance == None then Err(BudgetNotFound)
    else Ok(s.(budgets := s.budgets[k := b.(balance := Some(b.balance.value + amount), topups := b.topups + amount)]))
  }

  function Applied(s: State, r: Result<State, BudgetError>): State {
    match r case Ok(t) => t case Err(_) => s
  }

  // ---------- the reconciliation job ----------

  datatype Drift = Drift(customer: Key, balance: real, expected: real, drift: real, debt: real)

  function Expected(b: Budget): real {
    (if b.initial.Some? then b.initial.value else 0.0) + b.topups - b.deducted
  }

  /** The budgets whose keys the scan matches: those with a balance and without a tenant prefix. */
  function Scanned(s: State, plain: Key -> bool): set<Key> {
    set k | k in s.budgets && plain(k) && s.budgets[k].balance.Some?
  }

  /** One scanned key; the totals are those of `head`, the id up to its first colon. */
  function DriftAt(s: State, k: Key, head: Key): Drift {
    var balance := if BudgetAt(s, k).balance.Some? then BudgetAt(s, k).balance.value else 0.0;
    var b := BudgetAt(s, head);
    Drift(head, balance, Expected(b), balance - Expected(b), b.debt)
  }

  function Magnitude(x: real): real {
    if x < 0.0 then -x else x
  }

  /** The job's result lists the first hundred of what it found. */
  function Listed(drifts: seq<Drift>): seq<Drift> {
    if |drifts| > 100 then drifts[..100] else drifts
  }

  function Drifts(s: State, keys: seq<Key>, head: Key -> Key, tolerance: real): seq<Drift> {
    if keys == [] then []
    else
      var d := DriftAt(s, keys[|keys| - 1], head(keys[|keys| - 1]));
      Drifts(s, keys[..|keys| - 1], head, tolerance) + if Magnitude(d.drift) > tolerance then [d] else []
  }

  // ---------- the scripts, in place ----------

  class Ledger {
    var budgets: map<Key, Budget>
    var spans: map<Key, Span>
    var records: map<Id, Record>
    var pending: map<Id, int>
    var windows: map<nat, set<Id>>
    var applied: set<nat>

    ghost function Contents(): State
      reads this
    {
      State(budgets, spans, records, pending, windows, applied)
    }

    constructor ()
      ensures Contents() == START
    {
      budgets, spans, records, pending, windows, applied := map[], map[], map[], map[], map[], {};
    }

    method GetBudget(k: Key) returns (b: Budget)
      ensures b == BudgetAt(Contents(), k)
    {
      b := if k in budgets then budgets[k] else NO_BUDGET_KEYS;
    }

    method GetSpan(k: Key) returns (p: Span)
      ensures p == SpanAt(Contents(), k)
    {
      p := if k in spans then spans[k] else NO_SPAN_KEYS;
    }

    /** INCRBYFLOAT on a held key. */
    method AddToHeld(k: Key, amount: real)
      modifies this`budgets
      ensures Contents() == AddHeld(old(Contents()), k, amount)
    {
      var b := GetBudget(k);
      budgets := budgets[k := b.(held := b.held + amount)];
    }

    method AddToSpanHeld(k: Key, amount: real)
      modifies this`spans
      ensures Contents() == AddSpanHeld(old(Contents()), k, amount)
    {
      var p := GetSpan(k);
      spans := spans[k := p.(held := p.held + amount)];
    }

    /** Reservation.open and OPEN_SCRIPT. */
    method Open(rid: Id, r: Record, deadline: int) returns (answer: OpenAnswer)
      modifies this`budgets, this`spans, this`records, this`pending
      ensures (Contents(), answer) == OpenSpec(old(Contents()), rid, r, deadline)
      ensures AnsweredOpen(old(Contents()), rid, r, answer)
      ensures LeftByOpen(old(Contents()), rid, r, deadline, answer, Contents())
    {
      OpenAnswers(Contents(), rid, r, deadline);
      if r.reserved <= 0.0 {
        return Invalid;
      }
      if rid in records {
        var here := records[rid];
        var same := here.customer == r.customer && here.tenant == r.tenant && here.reserved == r.reserved;
        return if same then Existing else ReservationConflict;
      }
      var b := GetBudget(r.heldKey);
      if b.balance == None {
        return NoBudget;
      }
      if b.balance.value - b.held < r.reserved {
        return InsufficientBalance;
      }
      if r.spanKey.Some? {
        var p := GetSpan(r.spanKey.value);
        if p.cap.Some? && p.spent + p.held + r.reserved > p.cap.value {
          return HierarchyReserve;
        }
        if p.cap.Some? {
          AddToSpanHeld(r.spanKey.value, r.reserved);
        }
      }
      AddToHeld(r.heldKey, r.reserved);
      records, pending := records[rid := r], pending[rid := deadline];
      answer := Opened;
    }

    /** The lines that CLOSE_SCRIPT and the sink's loop share. */
    method ReleaseRecord(rid: Id, k: Key, span: Option<Key>, reserved: real) returns (released: real)
      modifies this`budgets, this`spans, this`records, this`pending
      ensures Contents() == EndHold(old(Contents()), rid, k, span, reserved)
      ensures released == Released(old(Contents()), k, reserved)
    {
      released := ReleaseFromBudget(k, reserved);
      if span.Some? {
        ReleaseFromSpan(span.value, released);
      }
      records, pending := records - {rid}, pending - {rid};
    }

    method ReleaseFromBudget(k: Key, reserved: real) returns (released: real)
      modifies this`budgets
      ensures Contents() == ReleaseHeld(old(Contents()), k, reserved)
      ensures released == Released(old(Contents()), k, reserved)
    {
      var b := GetBudget(k);
      released := if b.held <= reserved then b.held else reserved;
      if released > 0.0 {
        AddToHeld(k, -released);
      }
    }

    method ReleaseFromSpan(k: Key, released: real)
      modifies this`spans
      ensures Contents() == ReleaseSpan(old(Contents()), Some(k), released)
    {
      var p := GetSpan(k);
      if p.held > 0.0 {
        AddToSpanHeld(k, -(if p.held <= released then p.held else released));
      }
    }

    /** CLOSE_SCRIPT. */
    method CloseScript(rid: Id, k: Key, span: Option<Key>) returns (result: Closed)
      modifies this`budgets, this`spans, this`records, this`pending
      ensures (Contents(), result) == CloseSpec(old(Contents()), rid, k, span)
    {
      if rid !in records {
        pending := pending - {rid};
        return Nothing;
      }
      var customer, reserved := records[rid].customer, records[rid].reserved;
      var released := ReleaseRecord(rid, k, span, reserved);
      result := Closed(customer, released);
    }

    /** settle, and _close: the hash reads, then the script. `default` is the fallback prefix. */
    method Close(rid: Id, default: Key) returns (result: Closed)
      modifies this`budgets, this`spans, this`records, this`pending
      ensures (Contents(), result) == Settle(old(Contents()), rid, default)
    {
      var k, span := default, None;
      if rid in records {
        k, span := records[rid].heldKey, records[rid].spanKey;
      }
      result := CloseScript(rid, k, span);
    }

    /** expire_due: `due` is what ZRANGEBYSCORE lists. */
    method ExpireDue(due: seq<Id>, default: Key) returns (released: nat, alerts: seq<(Id, Closed)>)
      modifies this`budgets, this`spans, this`records, this`pending
      ensures (Contents(), alerts) == SettleAll(old(Contents()), due, default)
      ensures released == |alerts|
    {
      released, alerts := 0, [];
      for i := 0 to |due|
        invariant (Contents(), alerts) == SettleAll(old(Contents()), due[..i], default)
        invariant released == |alerts|
      {
        assert due[..i + 1][..i] == due[..i];
        var result := Close(due[i], default);
        assert alerts + [] == alerts;
        if result != Nothing {
          alerts := alerts + [(due[i], result)];
          released := released + 1;
        }
      }
      assert due[..|due|] == due;
    }

    /** The loop of the sink script over the window's reservations. */
    method ReleaseWindow(k: Key, order: seq<Id>)
      modifies this`budgets, this`spans, this`records, this`pending
      ensures Contents() == SinkReleaseAll(old(Contents()), k, order)
    {
      for i := 0 to |order|
        invariant Contents() == SinkReleaseAll(old(Contents()), k, order[..i])
      {
        assert order[..i + 1][..i] == order[..i];
        var rid := order[i];
        var reserved, span := 0.0, None;
        if rid in records {
          reserved, span := records[rid].reserved, records[rid].spanKey;
        }
        var _ := ReleaseRecord(rid, k, span, reserved);
      }
      assert order[..|order|] == order;
    }

    /** The budget part of SINK_LUA_SCRIPT. */
    method Sink(w: nat, k: Key, cost: real, order: seq<Id>) returns (outcome: Outcome)
      modifies this
      ensures (Contents(), outcome) == SinkSpec(old(Contents()), w, k, cost, order)
    {
      if w in applied {
        return Skip;
      }
      MarkAndRelease(w, k, cost, order);
      outcome := ChargeBalance(k, cost);
    }

    /** The script up to the deduction. */
    method MarkAndRelease(w: nat, k: Key, cost: real, order: seq<Id>)
      modifies this
      ensures Contents() == EndWindow(old(Contents()), w, k, cost, order)
    {
      applied := applied + {w};
      AddToDeducted(k, cost);
      ReleaseWindow(k, order);
      windows := windows - {w};
    }

    /** INCRBYFLOAT on the total deducted. */
    method AddToDeducted(k: Key, cost: real)
      modifies this`budgets
      ensures Contents() == Deduct(old(Contents()), k, cost)
    {
      var b := GetBudget(k);
      budgets := budgets[k := b.(deducted := b.deducted + cost)];
    }

    method ChargeBalance(k: Key, cost: real) returns (outcome: Outcome)
      modifies this`budgets
      ensures
        var s := old(Contents());
        var charge := Charge(BudgetAt(s, k), cost);
        && Contents() == (if charge.1 == NoBalance then s else s.(budgets := s.budgets[k := charge.0]))
        && outcome == charge.1
      ensures ChargedAs(BudgetAt(old(Contents()), k), cost, BudgetAt(Contents(), k), outcome)
    {
      ChargeIs(BudgetAt(Contents(), k), cost);
      var b := GetBudget(k);
      if b.balance == None {
        return NoBalance;
      }
      var balance, left := b.balance.value, b.balance.value - cost;
      if left < 0.0 {
        b := b.(debt := b.debt - left);
        left := 0.0;
      }
      b := b.(balance := Some(left));
      budgets := budgets[k := b];
      var threshold :=
        if b.threshold.Some? then b.threshold.value
        else (if b.initial.Some? then b.initial.value else 0.0) * ALERT_SHARE;
      if left <= 0.0 {
        outcome := Charged(Exhausted, left, balance);
      } else if left <= threshold && balance > threshold {
        outcome := Charged(Low, left, balance);
      } else {
        outcome := Charged(Fine, left, balance);
      }
    }

    /** SADD of the projection script. */
    method Attach(w: nat, rid: Id)
      modifies this`windows
      ensures Contents() == AttachSpec(old(Contents()), w, rid)
    {
      windows := windows[w := (if w in windows then windows[w] else {}) + {rid}];
    }

    /** The pipeline of Reservation.refresh. */
    method RefreshWrites(rid: Id, deadline: int)
      modifies this`pending
      ensures Contents() == RefreshSpec(old(Contents()), rid, deadline)
    {
      pending := pending[rid := deadline];
    }

    /** Budget.configure. */
    method Configure(k: Key, balance: real, threshold: Option<real>) returns (r: Result<(), BudgetError>)
      modifies this`budgets
      ensures r.Ok? <==> ConfigureSpec(old(Contents()), k, balance, threshold).Ok?
      ensures r.Err? ==> r.error == ConfigureSpec(old(Contents()), k, balance, threshold).error
      ensures Contents() == Applied(old(Contents()), ConfigureSpec(old(Contents()), k, balance, threshold))
      ensures r.Err? <==> balance < 0.0 || (threshold.Some? && threshold.value < 0.0)
      ensures r.Ok? ==>
        budgets == old(budgets)[k := Budget(Some(balance), 0.0, Some(balance), threshold, 0.0, 0.0, 0.0)]
      ensures r.Err? ==> budgets == old(budgets)
    {
      if balance < 0.0 || (threshold.Some? && threshold.value < 0.0) {
        return Err(InvalidBudget);
      }
      budgets := budgets[k := Budget(Some(balance), 0.0, Some(balance), threshold, 0.0, 0.0, 0.0)];
      r := Ok(());
    }

    /** Budget.top_up. */
    method TopUp(k: Key, amount: real) returns (r: Result<real, BudgetError>)
      modifies this`budgets
      ensures r.Ok? <==> TopUpSpec(old(Contents()), k, amount).Ok?
      ensures r.Err? ==> r.error == TopUpSpec(old(Contents()), k, amount).error
      ensures r == Err(InvalidBudget) <==> amount <= 0.0
      ensures r == Err(BudgetNotFound) <==> amount > 0.0 && BudgetAt(old(Contents()), k).balance == None
      ensures r.Ok? ==>
        var b, b' := BudgetAt(old(Contents()), k), BudgetAt(Contents(), k);
        && r.value == b.balance.value + amount && b'.balance == Some(r.value) && b'.topups == b.topups + amount
        && b' == b.(balance := b'.balance, topups := b'.topups)
      ensures Contents() == Applied(old(Contents()), TopUpSpec(old(Contents()), k, amount))
    {
      if amount <= 0.0 {
        return Err(InvalidBudget);
      }
      var b := GetBudget(k);
      if b.balance == None {
        return Err(BudgetNotFound);
      }
      budgets := budgets[k := b.(balance := Some(b.balance.value + amount), topups := b.topups + amount)];
      r := Ok(b.balance.value + amount);
    }

    /** reconcile_all: `keys` are the budgets the scan lists, in any order and perhaps repeatedly. */
    method ReconcileAll(keys: seq<Key>, plain: Key -> bool, head: Key -> Key, tolerance: real)
      returns (scanned: nat, found: nat, listed: seq<Drift>)
      requires forall k :: k in keys <==> k in Scanned(Contents(), plain)
      ensures scanned == |keys| && found == |Drifts(Contents(), keys, head, tolerance)|
      ensures listed == Listed(Drifts(Contents(), keys, head, tolerance))
    {
      var drifts: seq<Drift> := [];
      scanned := 0;
      for i := 0 to |keys|
        invariant scanned == i && drifts == Drifts(Contents(), keys[..i], head, tolerance)
      {
        assert keys[..i + 1][..i] == keys[..i];
        var b := GetBudget(keys[i]);
        var totals := GetBudget(head(keys[i]));
        var balance := if b.balance.Some? then b.balance.value else 0.0;
        var expected := (if totals.initial.Some? then totals.initial.value else 0.0) + totals.topups - totals.deducted;
        var drift := balance - expected;
        scanned := scanned + 1;
        if (if drift < 0.0 then -drift else drift) > tolerance {
          drifts := drifts + [Drift(head(keys[i]), balance, expected, drift, totals.debt)];
        }
      }
      assert keys[..|keys|] == keys;
      found, listed := |drifts|, if |drifts| > 100 then drifts[..100] else drifts;
    }
  }
}

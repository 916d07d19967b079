/** Keys printed from ids and parsed back: aggregation keys, window ids and Redis keys; and windows of time. */
module Keys {
  import opened Prelude

  // The aggregation key is TokenEvent.java's, its parser TokenUsageAggregator.java's, window ids and Redis
  // keys are TenantKeys.java's; EventProjectionSink.java says which window a reservation is attached to.

  type Text = seq<char>

  // ---------- joining and splitting ----------

  predicate Free(t: Text, sep: char) {
    forall i :: 0 <= i < |t| ==> t[i] != sep
  }

  function Join(parts: seq<Text>, sep: char): Text
    requires parts != []
  {
    if |parts| == 1 then parts[0] else parts[0] + [sep] + Join(parts[1..], sep)
  }

  /** String.split with limit -1: every part, empty ones too. `part` is what was read of the current one. */
  function SplitFrom(part: Text, t: Text, sep: char): (parts: seq<Text>)
    ensures parts != []
    decreases |t|
  {
    if t == [] then [part]
    else if t[0] == sep then [part] + SplitFrom([], t[1..], sep)
    else SplitFrom(part + [t[0]], t[1..], sep)
  }

  function Split(t: Text, sep: char): (parts: seq<Text>)
    ensures parts != []
  {
    SplitFrom([], t, sep)
  }

  lemma {:induction false} SplitFree(part: Text, t: Text, rest: Text, sep: char)
    requires Free(t, sep)
    ensures SplitFrom(part, t + rest, sep) == SplitFrom(part + t, rest, sep)
    decreases |t|
  {
    if t == [] {
      assert part + t == part && t + rest == rest;
    } else {
      assert (t + rest)[1..] == t[1..] + rest && (t + rest)[0] == t[0];
      SplitFree(part + [t[0]], t[1..], rest, sep);
      assert part + [t[0]] + t[1..] == part + t;
    }
  }

  /** A part that ends where the separator stands. */
  lemma {:induction false} SplitHead(t: Text, rest: Text, sep: char)
    requires Free(t, sep)
    ensures Split(t + [sep] + rest, sep) == [t] + Split(rest, sep)
    ensures Split(t, sep) == [t]
  {
    assert t + [sep] + rest == t + ([sep] + rest);
    SplitFree([], t, [sep] + rest, sep);
    assert ([sep] + rest)[1..] == rest && [] + t == t;
    SplitFree([], t, [], sep);
    assert t + [] == t;
  }

  /** Splitting gives back the parts that were joined. */
  lemma {:induction false} SplitJoin(parts: seq<Text>, sep: char)
    requires parts != [] && forall k :: 0 <= k < |parts| ==> Free(parts[k], sep)
    ensures Split(Join(parts, sep), sep) == parts
  {
    if |parts| == 1 {
      SplitHead(parts[0], [], sep);
    } else {
      SplitHead(parts[0], Join(parts[1..], sep), sep);
      SplitJoin(parts[1..], sep);
    }
  }

  lemma {:induction false} PartsAreFree(part: Text, t: Text, sep: char)
    requires Free(part, sep)
    ensures forall k :: 0 <= k < |SplitFrom(part, t, sep)| ==> Free(SplitFrom(part, t, sep)[k], sep)
    decreases |t|
  {
    if t != [] {
      PartsAreFree(if t[0] == sep then [] else part + [t[0]], t[1..], sep);
    }
  }

  /** And joining gives back the text that was split. */
  lemma {:induction false} JoinSplit(part: Text, t: Text, sep: char)
    ensures Join(SplitFrom(part, t, sep), sep) == part + t
    decreases |t|
  {
    if t == [] {
      assert part + t == part;
    } else if t[0] == sep {
      JoinSplit([], t[1..], sep);
      var rest := SplitFrom([], t[1..], sep);
      assert ([part] + rest)[1..] == rest;
      assert part + [sep] + ([] + t[1..]) == part + t;
    } else {
      JoinSplit(part + [t[0]], t[1..], sep);
      assert part + [t[0]] + t[1..] == part + t;
    }
  }

  // ---------- the aggregation key ----------

  /** Who an event belongs to; `blank` is String.isBlank. */
  datatype Owner = Owner(tenant: Option<Text>, customer: Text, model: Text)

  predicate HasTenant(o: Owner, blank: Text -> bool) {
    o.tenant.Some? && !blank(o.tenant.value)
  }

  /** The owner as every key sees it: a blank tenant is none. */
  function Known(o: Owner, blank: Text -> bool): Owner {
    if HasTenant(o, blank) then o else o.(tenant := None)
  }

  function OwnerParts(o: Owner, blank: Text -> bool): seq<Text> {
    if HasTenant(o, blank) then [o.tenant.value, o.customer, o.model] else [o.customer, o.model]
  }

  /** getAggregationKey. */
  function AggregationKey(o: Owner, blank: Text -> bool): Text {
    if HasTenant(o, blank) then o.tenant.value + ['|'] + o.customer + ['|'] + o.model
    else o.customer + ['|'] + o.model
  }

  /** applyKeyAndWindow, on an aggregate whose events named no tenant. */
  function ParseKey(key: Text): Owner {
    var parts := Split(key, '|');
    if |parts| >= 3 then Owner(Some(parts[0]), parts[1], parts[2])
    else if |parts| == 2 then Owner(None, parts[0], parts[1])
    else Owner(None, key, "unknown")
  }

  /** A key without a bar is a customer of an unknown model. */
  lemma {:induction false} BarelessKeysAreCustomers(key: Text)
    requires Free(key, '|')
    ensures ParseKey(key) == Owner(None, key, "unknown")
  {
    SplitHead(key, [], '|');
  }

  lemma {:induction false} KeyIsJoined(o: Owner, blank: Text -> bool)
    ensures AggregationKey(o, blank) == Join(OwnerParts(o, blank), '|')
  {
    if HasTenant(o, blank) {
      var parts := [o.tenant.value, o.customer, o.model];
      assert parts[1..][1..] == [o.model];
      assert Join(parts[1..], '|') == o.customer + ['|'] + o.model;
      assert o.tenant.value + ['|'] + (o.customer + ['|'] + o.model) == AggregationKey(o, blank);
    } else {
      var parts := [o.customer, o.model];
      assert parts[1..] == [o.model];
    }
  }

  predicate FreeIds(o: Owner, blank: Text -> bool) {
    (HasTenant(o, blank) ==> Free(o.tenant.value, '|')) && Free(o.customer, '|') && Free(o.model, '|')
  }

  /** Parsing recovers the owner exactly when none of its ids holds a bar. */
  lemma {:induction false} ParseRecoversExactlyFreeIds(o: Owner, blank: Text -> bool)
    ensures ParseKey(AggregationKey(o, blank)) == Known(o, blank) <==> FreeIds(o, blank)
  {
    var key, parts := AggregationKey(o, blank), OwnerParts(o, blank);
    KeyIsJoined(o, blank);
    if FreeIds(o, blank) {
      SplitJoin(parts, '|');
    } else {
      PartsAreFree([], key, '|');
      JoinSplit([], key, '|');
      assert [] + key == key;
      BarsInKey(o, blank);
    }
  }

  lemma {:induction false} OnePartIsFree(t: Text, sep: char)
    requires |Split(t, sep)| == 1
    ensures Free(t, sep)
  {
    PartsAreFree([], t, sep);
    JoinSplit([], t, sep);
    assert [] + t == t;
  }

  /** A key has a bar, so at least two parts. */
  lemma {:induction false} BarsInKey(o: Owner, blank: Text -> bool)
    ensures |Split(AggregationKey(o, blank), '|')| >= 2
  {
    var key := AggregationKey(o, blank);
    assert key[|key| - |o.model| - 1] == '|';
    if |Split(key, '|')| == 1 {
      OnePartIsFree(key, '|');
    }
  }

  // ---------- window ids ----------

  function Digit(d: nat): (c: char)
    requires d < 10
    ensures '0' <= c <= '9' && c as int - '0' as int == d
  {
    '0' + d as char
  }

  function Digits(n: nat): Text {
    (if n < 10 then [] else Digits(n / 10)) + [Digit(n % 10)]
  }

  /** String.valueOf of a long. */
  function Decimal(n: int): Text {
    if n < 0 then ['-'] + Digits(-n) else Digits(n)
  }

  function DigitsValue(t: Text): int {
    if t == [] then 0 else DigitsValue(t[..|t| - 1]) * 10 + (t[|t| - 1] as int - '0' as int)
  }

  function Value(t: Text): int {
    if t != [] && t[0] == '-' then -DigitsValue(t[1..]) else DigitsValue(t)
  }

  lemma {:induction false} DigitsAreFree(n: nat)
    ensures Free(Digits(n), '|') && Digits(n) != [] && Digits(n)[0] != '-'
  {
    if n >= 10 {
      DigitsAreFree(n / 10);
    }
  }

  lemma {:induction false} DigitsRead(n: nat)
    ensures DigitsValue(Digits(n)) == n
  {
    var last := [Digit(n % 10)];
    if n >= 10 {
      DigitsRead(n / 10);
      assert (Digits(n / 10) + last)[..|Digits(n / 10)|] == Digits(n / 10);
    } else {
      assert [] + last == last && last[..0] == [];
    }
  }

  /** Reading a printed number gives it back, so printing is injective; it holds no bar. */
  lemma {:induction false} DecimalRead(n: int)
    ensures Value(Decimal(n)) == n && Free(Decimal(n), '|')
  {
    var size := if n < 0 then -n else n;
    DigitsRead(size);
    DigitsAreFree(size);
    if n < 0 {
      assert Decimal(n)[1..] == Digits(size);
    }
  }

  /** TenantKeys.windowId. */
  function WindowId(o: Owner, start: int, blank: Text -> bool): Text {
    AggregationKey(o, blank) + ['|'] + Decimal(start)
  }

  lemma {:induction false} JoinMore(parts: seq<Text>, last: Text, sep: char)
    requires parts != []
    ensures Join(parts + [last], sep) == Join(parts, sep) + [sep] + last
  {
    if |parts| == 1 {
      assert (parts + [last])[1..] == [last];
    } else {
      assert (parts + [last])[1..] == parts[1..] + [last];
      JoinMore(parts[1..], last, sep);
      assert parts[0] + [sep] + (Join(parts[1..], sep) + [sep] + last) ==
             parts[0] + [sep] + Join(parts[1..], sep) + [sep] + last;
    }
  }

  lemma {:induction false} WindowIdParts(o: Owner, start: int, blank: Text -> bool)
    requires FreeIds(o, blank)
    ensures Split(WindowId(o, start, blank), '|') == OwnerParts(o, blank) + [Decimal(start)]
  {
    KeyIsJoined(o, blank);
    JoinMore(OwnerParts(o, blank), Decimal(start), '|');
    DecimalRead(start);
    SplitJoin(OwnerParts(o, blank) + [Decimal(start)], '|');
  }

  /** Windows of different owners or starts have different ids, negative starts included. */
  lemma {:induction false} WindowIdIsInjective(o: Owner, s: int, p: Owner, t: int, blank: Text -> bool)
    requires FreeIds(o, blank) && FreeIds(p, blank) && WindowId(o, s, blank) == WindowId(p, t, blank)
    ensures Known(o, blank) == Known(p, blank) && s == t
  {
    WindowIdParts(o, s, blank);
    WindowIdParts(p, t, blank);
    DecimalRead(s);
    DecimalRead(t);
    SameSplit(OwnerParts(o, blank), Decimal(s), OwnerParts(p, blank), Decimal(t));
  }

  lemma {:induction false} SameSplit(a: seq<Text>, x: Text, b: seq<Text>, y: Text)
    requires a + [x] == b + [y]
    ensures a == b && x == y
  {
    assert |a| == |b| && (a + [x])[..|a|] == a && (b + [y])[..|b|] == b;
    assert (a + [x])[|a|] == x && (b + [y])[|b|] == y;
  }

  /** With a bar in a model id, two owners share their window ids. */
  lemma {:induction false} BarsCollide(tenant: Text, customer: Text, model: Text, start: int, blank: Text -> bool)
    requires !blank(tenant)
    ensures WindowId(Owner(Some(tenant), customer, model), start, blank)
         == WindowId(Owner(None, tenant, customer + ['|'] + model), start, blank)
  {
    assert tenant + ['|'] + customer + ['|'] + model == tenant + ['|'] + (customer + ['|'] + model);
  }

  // ---------- the window of a reservation ----------

  /** Math.floorDiv, by a positive size. */
  function FloorDiv(n: int, size: int): int
    requires size > 0
  {
    n / size
  }

  function WindowStart(timestamp: int, size: int): int
    requires size > 0
  {
    FloorDiv(timestamp, size) * size
  }

  /** `start` begins the tumbling window that holds the timestamp. */
  predicate Holds(start: int, size: int, timestamp: int)
    requires size > 0
  {
    start % size == 0 && start <= timestamp < start + size
  }

  /** There is one such window for every timestamp, negative ones too, and it is the computed one. */
  lemma {:induction false} WindowStartIsTheWindow(start: int, size: int, timestamp: int)
    requires size > 0
    ensures Holds(start, size, timestamp) <==> start == WindowStart(timestamp, size)
  {
    var k := timestamp / size;
    assert timestamp == k * size + timestamp % size;
    Multiple(k, size);
    if Holds(start, size, timestamp) {
      var j := start / size;
      assert start == j * size;
      SameQuotient(j, k, size, timestamp);
    }
  }

  lemma {:induction false} Spread(d: int, size: int)
    requires size > 0 && d != 0
    ensures d * size >= size || d * size <= -size
  {
    if d >= 1 {
      assert (d - 1) * size >= 0;
    } else {
      assert (-1 - d) * size >= 0;
    }
  }

  lemma {:induction false} Multiple(k: int, size: int)
    requires size > 0
    ensures (k * size) % size == 0
  {
    var q, r := (k * size) / size, (k * size) % size;
    assert (k - q) * size == k * size - q * size == r;
    if k != q {
      Spread(k - q, size);
    }
  }

  lemma {:induction false} SameQuotient(j: int, k: int, size: int, n: int)
    requires size > 0 && j * size <= n < j * size + size && k * size <= n < k * size + size
    ensures j == k
  {
    if j != k {
      Spread(k - j, size);
    }
  }

  /**
   A reservation is attached to the window that its own aggregate's sink reads exactly when the key
   has two parts, or three of which the first is not blank.
   */
  lemma {:induction false} AttachedWhereTheSinkReads(
    o: Owner, timestamp: int, start: int, size: int, blank: Text -> bool)
    requires size > 0 && Holds(start, size, timestamp)
    ensures
      var parts := Split(AggregationKey(o, blank), '|');
      && WindowId(o, WindowStart(timestamp, size), blank) == WindowId(ParseKey(AggregationKey(o, blank)), start, blank)
      <==>
        |parts| == 2 || (|parts| == 3 && !blank(parts[0]))
  {
    WindowStartIsTheWindow(start, size, timestamp);
    var key := AggregationKey(o, blank);
    var parsed := ParseKey(key);
    BarsInKey(o, blank);
    PartsAreFree([], key, '|');
    JoinSplit([], key, '|');
    assert [] + key == key;
    KeyIsJoined(parsed, blank);
    SplitJoin(OwnerParts(parsed, blank), '|');
    var tail := ['|'] + Decimal(start);
    assert WindowId(o, start, blank) == key + tail;
    assert WindowId(parsed, start, blank) == AggregationKey(parsed, blank) + tail;
    SameTail(key, AggregationKey(parsed, blank), tail);
    var parts := Split(key, '|');
    if |parts| == 2 {
      assert OwnerParts(parsed, blank) == parts;
    } else if |parts| == 3 && !blank(parts[0]) {
      assert OwnerParts(parsed, blank) == parts;
    }
  }

  lemma {:induction false} SameTail(a: Text, b: Text, tail: Text)
    ensures a + tail == b + tail <==> a == b
  {
    if a + tail == b + tail {
      assert |a| == |b|;
      assert (a + tail)[..|a|] == a && (b + tail)[..|b|] == b;
    }
  }

  /** So it always is, for ids without bars. */
  lemma {:induction false} FreeIdsAttachWhereTheSinkReads(
    o: Owner, timestamp: int, start: int, size: int, blank: Text -> bool)
    requires size > 0 && Holds(start, size, timestamp) && FreeIds(o, blank)
    ensures WindowId(o, WindowStart(timestamp, size), blank) ==
            WindowId(ParseKey(AggregationKey(o, blank)), start, blank)
  {
    KeyIsJoined(o, blank);
    SplitJoin(OwnerParts(o, blank), '|');
    AttachedWhereTheSinkReads(o, timestamp, start, size, blank);
  }

  // ---------- late events ----------

  /** LateEventRouter.isLate; no watermark yet is Long.MIN_VALUE. */
  predicate IsLate(timestamp: int, watermark: Option<int>, size: int)
    requires size > 0
  {
    watermark.Some? && (FloorDiv(timestamp, size) + 1) * size <= watermark.value
  }

  /** An event is late exactly when its whole window lies before the watermark. */
  lemma {:induction false} LateMeansWindowPassed(timestamp: int, watermark: Option<int>, size: int)
    requires size > 0
    ensures IsLate(timestamp, watermark, size) <==>
      watermark.Some? && forall u :: WindowStart(u, size) == WindowStart(timestamp, size) ==> u < watermark.value
  {
    var start := WindowStart(timestamp, size);
    assert (FloorDiv(timestamp, size) + 1) * size == start + size;
    WindowStartIsTheWindow(start, size, timestamp);
    WindowStartIsTheWindow(start, size, start + size - 1);
    if IsLate(timestamp, watermark, size) {
      forall u | WindowStart(u, size) == start
        ensures u < watermark.value
      {
        WindowStartIsTheWindow(start, size, u);
      }
    }
  }

  // ---------- Redis keys ----------

  /** What a key is about. */
  datatype Subject =
    | Customer(id: Text)
    | Model(id: Text, model: Text)
    | Volume(id: Text, model: Text, month: Text)   // a model's monthly volume
    | Budget(id: Text)
    | Span(id: Text)
    | Session(id: Text)
    | Package(id: Text)
    | Debt(id: Text)                               // a package's debt
    | RateLimit(id: Text)
    | Global

  datatype Kind =
    Customers | Models | Volumes | Budgets | Spans | Sessions | Packages | Debts | RateLimits | Globals

  datatype Resource = Resource(tenant: Option<Text>, subject: Subject, field: Text)

  function KindOf(o: Subject): Kind {
    match o
    case Customer(_) => Customers
    case Model(_, _) => Models
    case Volume(_, _, _) => Volumes
    case Budget(_) => Budgets
    case Span(_) => Spans
    case Session(_) => Sessions
    case Package(_) => Packages
    case Debt(_) => Debts
    case RateLimit(_) => RateLimits
    case Global => Globals
  }

  /** The fields the program reads or writes under a key of each kind; only plain customers list their API keys. */
  predicate Has(kind: Kind, tenanted: bool, field: Text) {
    match kind
    case Customers => UsageField(field) || field == "spans" || (field == "apikeys" && !tenanted)
    case Models => TokenField(field) || field == "cost_usd"
    case Volumes => field == "volume_tokens"
    case Budgets => MoneyField(field) || AlertField(field)
    case Spans => ScopeField(field) || field in {"cost_usd", "total_tokens", "event_count", "call_count", "duration_ms"}
    case Sessions => ScopeField(field) || UsageField(field)
    case Packages => field == "tokens_remaining"
    case Debts => field == "debt"
    case RateLimits => field != [] && forall i :: 0 <= i < |field| ==> '0' <= field[i] <= '9'
    case Globals => TokenField(field) || field in {"total_events", "total_cost_usd", "last_window_end"}
  }

  predicate TokenField(field: Text) {
    field in {"input_tokens", "output_tokens", "total_tokens"}
  }

  predicate UsageField(field: Text) {
    TokenField(field) || field in {"event_count", "cost_usd", "cache_read_tokens", "reasoning_tokens"}
  }

  predicate MoneyField(field: Text) {
    field in {"balance_usd", "initial_balance_usd", "held_usd", "debt_usd", "total_deducted_usd", "total_topup_usd"}
  }

  predicate AlertField(field: Text) {
    || field in {"alert_threshold_usd", "max_rpm", "webhook_url", "webhook_secret", "webhook_low_sent"}
    || field in {"webhook_warn_70_sent", "webhook_warn_90_sent"}
  }

  predicate ScopeField(field: Text) {
    field in {"customer_id", "held_usd", "max_cost_usd", "cap_customer_id"}
  }

  function TenantParts(tenant: Option<Text>): seq<Text> {
    if tenant.Some? then ["tenant", tenant.value] else []
  }

  function SubjectParts(o: Subject): (parts: seq<Text>)
    ensures parts != []
  {
    match o
    case Customer(id) => ["customer", id]
    case Model(id, m) => ["customer", id, "model", m]
    case Volume(id, m, month) => ["customer", id, "model", m, "period", month]
    case Budget(id) => ["budget", id]
    case Span(id) => ["span", id]
    case Session(id) => ["session", id]
    case Package(id) => ["package", id]
    case Debt(id) => ["package", id, "tokens_remaining"]
    case RateLimit(id) => ["ratelimit", id]
    case Global => ["global"]
  }

  function RedisKey(r: Resource): Text {
    Join(TenantParts(r.tenant) + (SubjectParts(r.subject) + [r.field]), ':')
  }

  /** A resource the program has a key for; a blank tenant is none. */
  predicate Proper(r: Resource, blank: Text -> bool) {
    && (r.tenant.Some? ==> !blank(r.tenant.value))
    && Has(KindOf(r.subject), r.tenant.Some?, r.field)
    && (r.subject.Volume? ==> Free(r.subject.month, ':'))
  }

  // ---------- what a key says ----------

  /** What is printed before the ids of a kind. */
  function Mark(kind: Kind): Text {
    match kind
    case Budgets => ":budget:"
    case Spans => ":span:"
    case Sessions => ":session:"
    case Packages => ":package:"
    case Debts => ":package:"
    case RateLimits => ":ratelimit:"
    case Globals => ":global"
    case _ => ":customer:"
  }

  /** And what follows it, up to the field. */
  function Rest(o: Subject): Text {
    match o
    case Model(id, m) => id + ":model:" + m
    case Volume(id, m, month) => id + ":model:" + m + ":period:" + month
    case Debt(id) => id + ":tokens_remaining"
    case Global => []
    case _ => o.id
  }

  /** The tenant, the mark and the rest. */
  function Stem(r: Resource): Text {
    TenantId(r) + Mark(KindOf(r.subject)) + Rest(r.subject)
  }

  function TenantId(r: Resource): Text {
    if r.tenant.Some? then r.tenant.value else []
  }

  lemma {:induction false} JoinTwo(a: Text, b: Text, sep: char)
    ensures Join([a, b], sep) == a + [sep] + b
  {
    assert [a, b][1..] == [b];
  }

  lemma {:induction false} JoinTwoMore(parts: seq<Text>, a: Text, b: Text, sep: char)
    requires parts != []
    ensures Join(parts + [a, b], sep) == Join(parts, sep) + [sep] + a + [sep] + b
  {
    assert parts + [a, b] == parts + [a] + [b];
    JoinMore(parts + [a], b, sep);
    JoinMore(parts, a, sep);
  }

  lemma {:induction false} JoinTenant(tenant: Text, parts: seq<Text>)
    requires parts != []
    ensures Join(["tenant", tenant] + parts, ':') == "tenant:" + tenant + [':'] + Join(parts, ':')
  {
    var all := ["tenant", tenant] + parts;
    assert all[1..] == [tenant] + parts && all[1..][1..] == parts;
    assert Join(all[1..], ':') == tenant + [':'] + Join(parts, ':');
    assert "tenant" + [':'] == "tenant:";
  }

  lemma {:induction false} IdIs(word: Text, id: Text, mark: Text)
    requires mark == [':'] + word + [':']
    ensures [':'] + Join([word, id], ':') == mark + id
  {
    JoinTwo(word, id, ':');
  }

  lemma {:induction false} ModelIs(id: Text, m: Text)
    ensures [':'] + Join(["customer", id, "model", m], ':') == ":customer:" + (id + ":model:" + m)
  {
    assert [':'] + "customer" + [':'] == ":customer:" && [':'] + "model" + [':'] == ":model:";
    assert ["customer", id] + ["model", m] == ["customer", id, "model", m];
    JoinTwoMore(["customer", id], "model", m, ':');
    IdIs("customer", id, ":customer:");
    assert ":customer:" + id + [':'] + "model" + [':'] + m == ":customer:" + (id + ":model:" + m);
  }

  lemma {:induction false} VolumeIs(id: Text, m: Text, month: Text)
    ensures [':'] + Join(["customer", id, "model", m, "period", month], ':')
         == ":customer:" + (id + ":model:" + m + ":period:" + month)
  {
    assert [':'] + "period" + [':'] == ":period:";
    assert ["customer", id, "model", m] + ["period", month] == ["customer", id, "model", m, "period", month];
    JoinTwoMore(["customer", id, "model", m], "period", month, ':');
    ModelIs(id, m);
    var front := id + ":model:" + m;
    assert ":customer:" + front + [':'] + "period" + [':'] + month == ":customer:" + (front + ":period:" + month);
  }

  lemma {:induction false} DebtIs(id: Text)
    ensures [':'] + Join(["package", id, "tokens_remaining"], ':') == ":package:" + (id + ":tokens_remaining")
  {
    assert [':'] + "package" + [':'] == ":package:" && [':'] + "tokens_remaining" == ":tokens_remaining";
    assert ["package", id] + ["tokens_remaining"] == ["package", id, "tokens_remaining"];
    JoinMore(["package", id], "tokens_remaining", ':');
    IdIs("package", id, ":package:");
  }

  lemma {:induction false} SubjectIs(o: Subject)
    ensures [':'] + Join(SubjectParts(o), ':') == Mark(KindOf(o)) + Rest(o)
  {
    match o
    case Customer(id) => IdIs("customer", id, ":customer:");
    case Model(id, m) => ModelIs(id, m);
    case Volume(id, m, month) => VolumeIs(id, m, month);
    case Budget(id) => IdIs("budget", id, ":budget:");
    case Span(id) => IdIs("span", id, ":span:");
    case Session(id) => IdIs("session", id, ":session:");
    case Package(id) => IdIs("package", id, ":package:");
    case Debt(id) => DebtIs(id);
    case RateLimit(id) => IdIs("ratelimit", id, ":ratelimit:");
    case Global =>
      assert Join(["global"], ':') == "global";
      assert [':'] + "global" == ":global" + [];
  }

  lemma {:induction false} TenantKeyIs(tenant: Text, parts: seq<Text>, field: Text, ident: Text)
    requires parts != [] && ident == [':'] + Join(parts, ':')
    ensures Join(["tenant", tenant] + (parts + [field]), ':') == "tenant:" + (tenant + ident) + [':'] + field
  {
    JoinMore(parts, field, ':');
    JoinTenant(tenant, parts + [field]);
    var head := "tenant:";
    assert head + tenant + [':'] + (Join(parts, ':') + [':'] + field)
        == head + (tenant + ([':'] + Join(parts, ':'))) + [':'] + field;
  }

  /** What follows the tenant in a stem. */
  function Ident(r: Resource): Text {
    Mark(KindOf(r.subject)) + Rest(r.subject)
  }

  lemma {:induction false} StemIs(r: Resource)
    ensures Stem(r) == TenantId(r) + Ident(r)
  {
  }

  /** The text of every key: its stem, after "tenant:" or without the first colon, and its field. */
  lemma {:induction false} KeyIs(r: Resource)
    ensures Stem(r) != []
    ensures RedisKey(r) == (if r.tenant.Some? then "tenant:" + Stem(r) else Stem(r)[1..]) + [':'] + r.field
  {
    var parts := SubjectParts(r.subject);
    SubjectIs(r.subject);
    StemIs(r);
    if r.tenant.Some? {
      TenantKeyIs(r.tenant.value, parts, r.field, Ident(r));
    } else {
      JoinMore(parts, r.field, ':');
      assert [] + (parts + [r.field]) == parts + [r.field];
      assert [] + Ident(r) == Ident(r) && Ident(r)[1..] == Join(parts, ':');
    }
  }

  lemma {:induction false} UsageFieldsAreFree(field: Text)
    requires UsageField(field)
    ensures Free(field, ':')
  {
  }

  lemma {:induction false} MoneyFieldsAreFree(field: Text)
    requires MoneyField(field)
    ensures Free(field, ':')
  {
  }

  lemma {:induction false} AlertFieldsAreFree(field: Text)
    requires AlertField(field)
    ensures Free(field, ':')
  {
  }

  lemma {:induction false} ScopeFieldsAreFree(field: Text)
    requires ScopeField(field)
    ensures Free(field, ':')
  {
  }

  /** No field holds a colon. */
  lemma {:induction false} FieldsAreFree(kind: Kind, tenanted: bool, field: Text)
    requires Has(kind, tenanted, field)
    ensures Free(field, ':')
  {
    if MoneyField(field) {
      MoneyFieldsAreFree(field);
    } else if AlertField(field) {
      AlertFieldsAreFree(field);
    } else if UsageField(field) {
      UsageFieldsAreFree(field);
    } else if ScopeField(field) {
      ScopeFieldsAreFree(field);
    }
  }

  /** Two texts that end in a colon-free part are equal part by part. */
  lemma {:induction false} SameLast(a: Text, x: Text, b: Text, y: Text, sep: char)
    requires Free(x, sep) && Free(y, sep) && a + [sep] + x == b + [sep] + y
    ensures a == b && x == y
  {
    var t := a + [sep] + x;
    assert t[|a|] == sep && t[|b|] == sep;
    assert forall k :: |a| < k < |t| ==> t[k] == x[k - |a| - 1];
    assert forall k :: |b| < k < |t| ==> t[k] == y[k - |b| - 1];
    assert |a| == |b|;
    assert a == t[..|a|] && x == t[|a| + 1..];
  }

  /** The first letters tell keys with a tenant from those without. */
  lemma {:induction false} FirstLetter(r: Resource)
    ensures RedisKey(r) != [] && (RedisKey(r)[0] == 't' <==> r.tenant.Some?)
    ensures r.tenant == None ==> RedisKey(r)[0] == Mark(KindOf(r.subject))[1]
  {
    KeyIs(r);
  }

  /** Keys agree exactly when both have a tenant or none, and the same stem and field. */
  lemma {:induction false} KeysAgreeExactlyWhen(r: Resource, s: Resource)
    requires Free(r.field, ':') && Free(s.field, ':')
    ensures RedisKey(r) == RedisKey(s) <==>
      r.tenant.Some? == s.tenant.Some? && Stem(r) == Stem(s) && r.field == s.field
  {
    KeyIs(r);
    KeyIs(s);
    if RedisKey(r) == RedisKey(s) {
      FirstLetter(r);
      FirstLetter(s);
      if r.tenant.Some? {
        SameLast("tenant:" + Stem(r), r.field, "tenant:" + Stem(s), s.field, ':');
        assert Stem(r) == ("tenant:" + Stem(r))[7..] && Stem(s) == ("tenant:" + Stem(s))[7..];
      } else {
        SameLast(Stem(r)[1..], r.field, Stem(s)[1..], s.field, ':');
        FirstColon(r);
        FirstColon(s);
        assert Stem(r) == [':'] + Stem(r)[1..] && Stem(s) == [':'] + Stem(s)[1..];
      }
    }
  }

  lemma {:induction false} FirstColon(r: Resource)
    requires r.tenant == None
    ensures Stem(r) != [] && Stem(r)[0] == ':'
  {
    assert [] + Mark(KindOf(r.subject)) == Mark(KindOf(r.subject));
  }

  // ---------- cutting a stem ----------

  predicate At(t: Text, mark: Text, i: nat) {
    i + |mark| <= |t| && t[i..i + |mark|] == mark
  }

  /** Where a stem is cut: the mark of a kind, and inside what follows, that of a model and of a period. */
  datatype Cut = Cut(kind: Kind, start: nat, model: nat, period: nat)

  /** The cut is at marks that stand there; `model` and `period` count from behind the first mark. */
  predicate CanCut(stem: Text, c: Cut) {
    At(stem, Mark(c.kind), c.start) && CanCutRest(c, stem[c.start + |Mark(c.kind)|..])
  }

  predicate CanCutRest(c: Cut, rest: Text) {
    match c.kind
    case Models => At(rest, ":model:", c.model) && c.period == 0
    case Volumes =>
      && At(rest, ":model:", c.model) && c.model + 7 <= c.period
      && At(rest, ":period:", c.period) && Free(rest[c.period + 8..], ':')
    case Debts => |rest| >= 17 && At(rest, ":tokens_remaining", |rest| - 17) && c.model == c.period == 0
    case Globals => rest == [] && c.model == c.period == 0
    case _ => c.model == c.period == 0
  }

  /** Where the stem of a resource is cut by its own ids. */
  function OwnCut(r: Resource): Cut {
    var o := r.subject;
    Cut(KindOf(o), |TenantId(r)|, if o.Model? || o.Volume? then |o.id| else 0,
        if o.Volume? then |o.id| + 7 + |o.model| else 0)
  }

  /** The subject that is printed as the rest behind a mark. */
  function SubjectAt(c: Cut, rest: Text): Subject
    requires CanCutRest(c, rest)
  {
    match c.kind
    case Customers => Customer(rest)
    case Models => Model(rest[..c.model], rest[c.model + 7..])
    case Volumes => Volume(rest[..c.model], rest[c.model + 7..c.period], rest[c.period + 8..])
    case Budgets => Budget(rest)
    case Spans => Span(rest)
    case Sessions => Session(rest)
    case Packages => Package(rest)
    case Debts => Debt(rest[..|rest| - 17])
    case RateLimits => RateLimit(rest)
    case Globals => Global
  }

  /** The resource with the same text before its field as the stem, cut there. */
  function ResourceAt(stem: Text, tenanted: bool, c: Cut, field: Text): Resource
    requires CanCut(stem, c)
  {
    Resource(if tenanted then Some(stem[..c.start]) else None,
             SubjectAt(c, stem[c.start + |Mark(c.kind)|..]), field)
  }

  lemma {:induction false} ThreeParts(a: Text, mark: Text, b: Text)
    ensures At(a + mark + b, mark, |a|)
    ensures (a + mark + b)[..|a|] == a && (a + mark + b)[|a| + |mark|..] == b
  {
    assert (a + mark + b)[|a|..|a| + |mark|] == mark;
  }

  lemma {:induction false} CutAt(t: Text, mark: Text, i: nat)
    requires At(t, mark, i)
    ensures t == t[..i] + mark + t[i + |mark|..]
  {
  }

  lemma {:induction false} SimpleReads(o: Subject, c: Cut)
    requires !o.Model? && !o.Volume? && !o.Debt? && c.kind == KindOf(o) && c.model == c.period == 0
    ensures CanCutRest(c, Rest(o)) && SubjectAt(c, Rest(o)) == o
  {
  }

  lemma {:induction false} ModelReads(id: Text, m: Text)
    ensures
      var c, rest := Cut(Models, 0, |id|, 0), Rest(Model(id, m));
      CanCutRest(c, rest) && SubjectAt(c, rest) == Model(id, m)
  {
    ThreeParts(id, ":model:", m);
  }

  lemma {:induction false} VolumeReads(id: Text, m: Text, month: Text)
    requires Free(month, ':')
    ensures
      var c, rest := Cut(Volumes, 0, |id|, |id| + 7 + |m|), Rest(Volume(id, m, month));
      CanCutRest(c, rest) && SubjectAt(c, rest) == Volume(id, m, month)
  {
    FiveParts(id, ":model:", m, ":period:", month);
  }

  lemma {:induction false} DebtReads(id: Text)
    ensures
      var c, rest := Cut(Debts, 0, 0, 0), Rest(Debt(id));
      CanCutRest(c, rest) && SubjectAt(c, rest) == Debt(id)
  {
    var mark := ":tokens_remaining";
    assert id + mark + [] == id + mark;
    ThreeParts(id, mark, []);
  }

  /** Printing a subject and reading it back behind its own marks. */
  lemma {:induction false} RestReads(o: Subject, c: Cut)
    requires c.kind == KindOf(o) && c.model == (if o.Model? || o.Volume? then |o.id| else 0)
    requires c.period == if o.Volume? then |o.id| + 7 + |o.model| else 0
    requires o.Volume? ==> Free(o.month, ':')
    ensures CanCutRest(c, Rest(o)) && SubjectAt(c, Rest(o)) == o
  {
    match o
    case Model(id, m) => ModelReads(id, m);
    case Volume(id, m, month) => VolumeReads(id, m, month);
    case Debt(id) => DebtReads(id);
    case _ => SimpleReads(o, c);
  }

  lemma {:induction false} FiveParts(a: Text, mark: Text, b: Text, next: Text, c: Text)
    ensures
      var t, k := a + mark + b + next + c, |a| + |mark| + |b|;
      && At(t, mark, |a|) && At(t, next, k)
      && t[..|a|] == a && t[|a| + |mark|..k] == b && t[k + |next|..] == c
  {
    var front := a + mark + b;
    ThreeParts(front, next, c);
    ThreeParts(a, mark, b);
    var t := front + next + c;
    assert t[..|front|] == front;
    assert t[|a|..|a| + |mark|] == front[|a|..|a| + |mark|] && t[..|a|] == front[..|a|];
    assert t[|a| + |mark|..|front|] == front[|a| + |mark|..];
  }

  lemma {:induction false} VolumePrints(rest: Text, i: nat, k: nat)
    requires At(rest, ":model:", i) && i + 7 <= k && At(rest, ":period:", k)
    ensures rest == rest[..i] + ":model:" + rest[i + 7..k] + ":period:" + rest[k + 8..]
  {
    CutAt(rest, ":period:", k);
    var front := rest[..k];
    assert At(front, ":model:", i);
    CutAt(front, ":model:", i);
    assert front[..i] == rest[..i] && front[i + 7..] == rest[i + 7..k];
  }

  /** Reading the rest behind a mark and printing it again. */
  lemma {:induction false} RestPrints(c: Cut, rest: Text)
    requires CanCutRest(c, rest)
    ensures var o := SubjectAt(c, rest);
      && KindOf(o) == c.kind && Rest(o) == rest && (o.Volume? ==> Free(o.month, ':'))
      && c.model == (if o.Model? || o.Volume? then |o.id| else 0)
      && c.period == if o.Volume? then |o.id| + 7 + |o.model| else 0
  {
    match c.kind
    case Models => CutAt(rest, ":model:", c.model);
    case Volumes => VolumePrints(rest, c.model, c.period);
    case Debts => CutAt(rest, ":tokens_remaining", |rest| - 17);
    case _ =>
  }

  lemma {:induction false} StemReads(r: Resource)
    requires r.subject.Volume? ==> Free(r.subject.month, ':')
    ensures CanCut(Stem(r), OwnCut(r)) && ResourceAt(Stem(r), r.tenant.Some?, OwnCut(r), r.field) == r
  {
    ThreeParts(TenantId(r), Mark(KindOf(r.subject)), Rest(r.subject));
    RestReads(r.subject, OwnCut(r));
  }

  lemma {:induction false} StemPrints(stem: Text, tenanted: bool, c: Cut, field: Text)
    requires CanCut(stem, c) && (!tenanted ==> c.start == 0)
    ensures var s := ResourceAt(stem, tenanted, c, field);
      Stem(s) == stem && OwnCut(s) == c && (s.subject.Volume? ==> Free(s.subject.month, ':'))
  {
    RestPrints(c, stem[c.start + |Mark(c.kind)|..]);
    CutAt(stem, Mark(c.kind), c.start);
  }

  // ---------- colliding keys ----------

  /** Another resource of the program has the same key. */
  ghost predicate Collides(r: Resource, blank: Text -> bool) {
    exists s: Resource :: s != r && Proper(s, blank) && RedisKey(s) == RedisKey(r)
  }

  /** The cut is at a mark whose kind has the field; what stands before it is a tenant, or nothing. */
  predicate Reads(r: Resource, c: Cut, blank: Text -> bool) {
    && CanCut(Stem(r), c) && Has(c.kind, r.tenant.Some?, r.field)
    && if r.tenant.Some? then !blank(Stem(r)[..c.start]) else c.start == 0
  }

  /**
   A resource shares its key with another exactly when its stem can be cut at other marks, or at the same
   for another kind, and that kind has the field. This is so for every kind, tenant, id and field.
   */
  lemma {:induction false} CollidesExactlyWhen(r: Resource, blank: Text -> bool)
    requires Proper(r, blank)
    ensures Collides(r, blank) <==> exists c: Cut :: c != OwnCut(r) && Reads(r, c, blank)
  {
    if s: Resource :| s != r && Proper(s, blank) && RedisKey(s) == RedisKey(r) {
      AnotherCut(r, s, blank);
    }
    if c: Cut :| c != OwnCut(r) && Reads(r, c, blank) {
      AnotherResource(r, c, blank);
    }
  }

  lemma {:induction false} AnotherCut(r: Resource, s: Resource, blank: Text -> bool)
    requires Proper(r, blank) && Proper(s, blank) && s != r && RedisKey(s) == RedisKey(r)
    ensures OwnCut(s) != OwnCut(r) && Reads(r, OwnCut(s), blank)
  {
    FieldsAreFree(KindOf(r.subject), r.tenant.Some?, r.field);
    FieldsAreFree(KindOf(s.subject), s.tenant.Some?, s.field);
    KeysAgreeExactlyWhen(r, s);
    StemReads(r);
    StemReads(s);
  }

  lemma {:induction false} AnotherResource(r: Resource, c: Cut, blank: Text -> bool)
    requires Proper(r, blank) && c != OwnCut(r) && Reads(r, c, blank)
    ensures
      var s := ResourceAt(Stem(r), r.tenant.Some?, c, r.field);
      s != r && Proper(s, blank) && RedisKey(s) == RedisKey(r)
  {
    var s := ResourceAt(Stem(r), r.tenant.Some?, c, r.field);
    FieldsAreFree(KindOf(r.subject), r.tenant.Some?, r.field);
    StemPrints(Stem(r), r.tenant.Some?, c, r.field);
    KeysAgreeExactlyWhen(r, s);
  }

  /** A span of one tenant prints the usage keys of a customer of another, whatever the three ids are. */
  lemma {:induction false} SpansPrintCustomersKeys(a: Text, b: Text, c: Text, field: Text)
    ensures RedisKey(Resource(Some(a + ":span:" + b), Customer(c), field))
         == RedisKey(Resource(Some(a), Span(b + ":customer:" + c), field))
  {
    var r := Resource(Some(a + ":span:" + b), Customer(c), field);
    var s := Resource(Some(a), Span(b + ":customer:" + c), field);
    KeyIs(r);
    KeyIs(s);
    assert Stem(r) == a + ":span:" + b + ":customer:" + c == Stem(s);
  }

  // ---------- keys without a tenant ----------

  /** The second and third letter of a mark decide it. */
  function Sign(kind: Kind): (char, char) {
    match kind
    case Budgets => ('b', 'u')
    case Spans => ('s', 'p')
    case Sessions => ('s', 'e')
    case Packages => ('p', 'a')
    case Debts => ('p', 'a')
    case RateLimits => ('r', 'a')
    case Globals => ('g', 'l')
    case _ => ('c', 'u')
  }

  lemma {:induction false} MarkSigns(kind: Kind)
    ensures |Mark(kind)| >= 3 && (Mark(kind)[1], Mark(kind)[2]) == Sign(kind)
  {
  }

  /** Without a tenant, a key can only be cut at the marks of its own word. */
  lemma {:induction false} PlainCutIsOfItsWord(r: Resource, c: Cut)
    requires r.tenant == None && CanCut(Stem(r), c) && c.start == 0
    ensures Sign(c.kind) == Sign(KindOf(r.subject)) && Mark(c.kind) == Mark(KindOf(r.subject))
    ensures CanCutRest(c, Rest(r.subject))
  {
    var kind, rest, stem := KindOf(r.subject), Rest(r.subject), Stem(r);
    MarkSigns(c.kind);
    MarkSigns(kind);
    SameBeginning(Mark(kind), rest, Mark(c.kind));
    SameSign(kind, c.kind);
    ThreeParts([], Mark(kind), rest);
    assert [] + Mark(kind) + rest == stem;
  }

  lemma {:induction false} SameBeginning(mark: Text, rest: Text, other: Text)
    requires |mark| >= 3 && |other| >= 3 && At(mark + rest, other, 0)
    ensures mark[1] == other[1] && mark[2] == other[2]
  {
    assert (mark + rest)[0..|other|][1] == other[1] && (mark + rest)[0..|other|][2] == other[2];
  }

  lemma {:induction false} SameSign(kind: Kind, other: Kind)
    requires Sign(kind) == Sign(other)
    ensures Mark(kind) == Mark(other)
  {
  }

  /** Whether a key without a tenant is shared: only a model's mark can be mistaken. */
  ghost predicate PlainlyShared(r: Resource) {
    match r.subject
    case Customer(id) => Has(Models, false, r.field) && exists i: nat :: At(id, ":model:", i)
    case Model(_, _) => true
    case Volume(id, m, _) => exists i: nat :: i != |id| && At(id + ":model:" + m, ":model:", i)
    case _ => false
  }

  lemma {:induction false} VolumeFieldIsItsOwn(kind: Kind, field: Text)
    requires Has(Volumes, false, field) && Has(kind, false, field)
    ensures kind != Customers && kind != Models
  {
  }

  lemma {:induction false} PackageFieldsDiffer(field: Text)
    ensures !(Has(Packages, false, field) && Has(Debts, false, field))
  {
    assert |"tokens_remaining"| != |"debt"|;
  }

  /** The month has no colon, so a volume's period is cut at the last mark only. */
  lemma {:induction false} OnePeriod(front: Text, month: Text, k: nat)
    requires Free(month, ':')
    requires
      var rest := front + ":period:" + month;
      At(rest, ":period:", k) && Free(rest[k + 8..], ':')
    ensures k == |front|
  {
    var rest := front + ":period:" + month;
    CutAt(rest, ":period:", k);
    assert ":period" + [':'] == ":period:";
    assert rest == (front + ":period") + [':'] + month && rest == (rest[..k] + ":period") + [':'] + rest[k + 8..];
    SameLast(front + ":period", month, rest[..k] + ":period", rest[k + 8..], ':');
  }

  lemma {:induction false} VolumeCutIsShared(id: Text, m: Text, month: Text, i: nat, k: nat)
    requires Free(month, ':')
    requires
      var rest := Rest(Volume(id, m, month));
      At(rest, ":model:", i) && i + 7 <= k && At(rest, ":period:", k) && Free(rest[k + 8..], ':')
    ensures k == |id| + 7 + |m| && At(id + ":model:" + m, ":model:", i)
  {
    var front := id + ":model:" + m;
    assert Rest(Volume(id, m, month)) == front + ":period:" + month;
    OnePeriod(front, month, k);
    assert Rest(Volume(id, m, month))[..k] == front;
  }

  lemma {:induction false} PlainCutIsShared(r: Resource, c: Cut)
    requires r.tenant == None && Has(KindOf(r.subject), false, r.field) && Has(c.kind, false, r.field)
    requires r.subject.Volume? ==> Free(r.subject.month, ':')
    requires c != OwnCut(r) && c.start == 0 && CanCutRest(c, Rest(r.subject))
    requires Sign(c.kind) == Sign(KindOf(r.subject))
    ensures PlainlyShared(r)
  {
    PackageFieldsDiffer(r.field);
    match r.subject
    case Customer(id) =>
      if c.kind == Volumes {
        VolumeFieldIsItsOwn(Customers, r.field);
      }
    case Volume(id, m, month) =>
      VolumeFieldIsItsOwn(c.kind, r.field);
      VolumeCutIsShared(id, m, month, c.model, c.period);
    case _ =>
  }

  /** A cut of the rest behind the own mark is a cut of the stem. */
  lemma {:induction false} PlainCut(r: Resource, c: Cut, blank: Text -> bool)
    requires Proper(r, blank) && r.tenant == None && Has(c.kind, false, r.field)
    requires c.start == 0 && Mark(c.kind) == Mark(KindOf(r.subject)) && CanCutRest(c, Rest(r.subject))
    ensures Reads(r, c, blank)
  {
    ThreeParts([], Mark(c.kind), Rest(r.subject));
  }

  lemma {:induction false} SharedVolume(id: Text, m: Text, month: Text, i: nat)
    requires Free(month, ':') && At(id + ":model:" + m, ":model:", i)
    ensures CanCutRest(Cut(Volumes, 0, i, |id| + 7 + |m|), Rest(Volume(id, m, month)))
  {
    FiveParts(id, ":model:", m, ":period:", month);
    var front, rest := id + ":model:" + m, Rest(Volume(id, m, month));
    assert front == rest[..|front|];
    assert rest[i..i + 7] == front[i..i + 7];
  }

  lemma {:induction false} SharedCut(r: Resource, blank: Text -> bool) returns (c: Cut)
    requires Proper(r, blank) && r.tenant == None && PlainlyShared(r)
    ensures c != OwnCut(r) && Reads(r, c, blank)
  {
    match r.subject
    case Customer(id) =>
      var i: nat :| At(id, ":model:", i);
      c := Cut(Models, 0, i, 0);
      PlainCut(r, c, blank);
    case Model(_, _) =>
      c := Cut(Customers, 0, 0, 0);
      PlainCut(r, c, blank);
    case Volume(id, m, month) =>
      var i: nat :| i != |id| && At(id + ":model:" + m, ":model:", i);
      c := Cut(Volumes, 0, i, |id| + 7 + |m|);
      SharedVolume(id, m, month, i);
      PlainCut(r, c, blank);
  }

  /**
   Without a tenant, a customer's key is shared exactly when its id holds a model's mark and models have the
   field; a model's always, with the customer named by both ids; a monthly volume's exactly when its ids hold
   another such mark; and no key of a budget, span, session, package, rate limit or global ever is.
   */
  lemma {:induction false} PlainKeysCollideExactlyWhen(r: Resource, blank: Text -> bool)
    requires Proper(r, blank) && r.tenant == None
    ensures Collides(r, blank) <==> PlainlyShared(r)
  {
    CollidesExactlyWhen(r, blank);
    if c: Cut :| c != OwnCut(r) && Reads(r, c, blank) {
      PlainCutIsOfItsWord(r, c);
      PlainCutIsShared(r, c);
    }
    if PlainlyShared(r) {
      var c := SharedCut(r, blank);
    }
  }

  // ---------- budgets of tenants ----------

  lemma {:induction false} MoneyIsOfBudgets(kind: Kind, field: Text)
    requires MoneyField(field) && Has(kind, true, field)
    ensures kind == Budgets || (field == "held_usd" && (kind == Spans || kind == Sessions))
  {
    assert field[0] in {'b', 'i', 'h', 'd', 't'};
  }

  /**
   The money of a tenant's budget is another resource's exactly when a budget's mark stands elsewhere in its
   stem, or, for the held amount, a span's or session's mark anywhere, behind what is a tenant.
   */
  lemma {:induction false} TenantBudgetsCollideExactlyWhen(tenant: Text, id: Text, field: Text, blank: Text -> bool)
    requires MoneyField(field) && !blank(tenant)
    ensures
      var r := Resource(Some(tenant), Budget(id), field);
      Collides(r, blank) <==> exists i: nat, kind: Kind ::
        && At(Stem(r), Mark(kind), i) && !blank(Stem(r)[..i])
        && ((kind == Budgets && i != |tenant|) || (field == "held_usd" && (kind == Spans || kind == Sessions)))
  {
    var r := Resource(Some(tenant), Budget(id), field);
    CollidesExactlyWhen(r, blank);
    if c: Cut :| c != OwnCut(r) && Reads(r, c, blank) {
      MoneyIsOfBudgets(c.kind, field);
      assert At(Stem(r), Mark(c.kind), c.start);
    }
    if i: nat, kind: Kind :|
        && At(Stem(r), Mark(kind), i) && !blank(Stem(r)[..i])
        && ((kind == Budgets && i != |tenant|) || (field == "held_usd" && (kind == Spans || kind == Sessions))) {
      assert Reads(r, Cut(kind, i, 0, 0), blank);
    }
  }

  // ---------- ids without colons ----------

  predicate ColonFree(r: Resource) {
    && (r.tenant.Some? ==> Free(r.tenant.value, ':')) && Free(r.field, ':')
    && forall k :: 0 <= k < |SubjectParts(r.subject)| ==> Free(SubjectParts(r.subject)[k], ':')
  }

  lemma {:induction false} KeySplits(r: Resource)
    requires ColonFree(r)
    ensures Split(RedisKey(r), ':') == TenantParts(r.tenant) + (SubjectParts(r.subject) + [r.field])
  {
    SplitJoin(TenantParts(r.tenant) + (SubjectParts(r.subject) + [r.field]), ':');
  }

  lemma {:induction false} WordSigns(o: Subject)
    ensures |SubjectParts(o)[0]| >= 3 && (SubjectParts(o)[0][0], SubjectParts(o)[0][1]) == Sign(KindOf(o))
  {
  }

  lemma {:induction false} PartsDecide(o: Subject, x: Text, p: Subject, y: Text)
    requires SubjectParts(o) + [x] == SubjectParts(p) + [y]
    ensures o == p && x == y
  {
    var a, b := SubjectParts(o), SubjectParts(p);
    assert |a| == |b| && (a + [x])[..|a|] == a && (b + [y])[..|b|] == b;
    assert (a + [x])[|a|] == x && (b + [y])[|b|] == y;
    assert a[0] == b[0];
    WordSigns(o);
    WordSigns(p);
    assert forall k :: 0 <= k < |a| ==> a[k] == b[k];
  }

  /** Resources of any kind whose ids hold no colon never share a Redis key. */
  lemma {:induction false} RedisKeysAreDistinct(r: Resource, s: Resource)
    requires ColonFree(r) && ColonFree(s) && RedisKey(r) == RedisKey(s)
    ensures r == s
  {
    KeySplits(r);
    KeySplits(s);
    var a, b := SubjectParts(r.subject) + [r.field], SubjectParts(s.subject) + [s.field];
    assert TenantParts(r.tenant) + a == TenantParts(s.tenant) + b;
    WordSigns(r.subject);
    WordSigns(s.subject);
    assert (TenantParts(r.tenant) + a)[0] == (TenantParts(s.tenant) + b)[0];
    assert r.tenant.Some? == s.tenant.Some?;
    if r.tenant.Some? {
      assert (TenantParts(r.tenant) + a)[1] == (TenantParts(s.tenant) + b)[1];
    }
    assert a == (TenantParts(r.tenant) + a)[|TenantParts(r.tenant)|..];
    assert b == (TenantParts(s.tenant) + b)[|TenantParts(s.tenant)|..];
    PartsDecide(r.subject, r.field, s.subject, s.field);
  }

  // ---------- the reconciliation job's scan ----------

  /** The keys scan_iter(match="budget:*:balance_usd") yields. */
  predicate Scanned(key: Text) {
    |key| >= 19 && key[..7] == "budget:" && key[|key| - 12..] == ":balance_usd"
  }

  lemma {:induction false} EndsIn(front: Text, last: Text, field: Text)
    requires Free(last, ':') && Free(field, ':')
    ensures
      var key, n := front + [':'] + last, |field| + 1;
      |key| >= n && key[|key| - n..] == [':'] + field <==> last == field
  {
    var key, n := front + [':'] + last, |field| + 1;
    if |key| >= n && key[|key| - n..] == [':'] + field {
      assert key == key[..|key| - n] + [':'] + field;
      SameLast(front, last, key[..|key| - n], field, ':');
    }
  }

  /** A field is what the key ends in, after a colon. */
  lemma {:induction false} LastField(r: Resource, field: Text)
    requires Free(r.field, ':') && Free(field, ':')
    ensures
      var key, n := RedisKey(r), |field| + 1;
      |key| >= n && key[|key| - n..] == [':'] + field <==> r.field == field
  {
    var front := FrontOf(r);
    EndsIn(front, r.field, field);
  }

  /** What stands before the field. */
  lemma {:induction false} FrontOf(r: Resource) returns (front: Text)
    ensures RedisKey(r) == front + [':'] + r.field
  {
    KeyIs(r);
    front := if r.tenant.Some? then "tenant:" + Stem(r) else Stem(r)[1..];
  }

  lemma {:induction false} PlainBudgetKey(customer: Text, field: Text)
    ensures RedisKey(Resource(None, Budget(customer), field)) == "budget" + [':'] + (customer + [':'] + field)
  {
    var word, parts := "budget", ["budget", customer];
    assert [] + (parts + [field]) == parts + [field];
    JoinMore(parts, field, ':');
    JoinTwo(word, customer, ':');
    assert word + [':'] + customer + [':'] + field == word + [':'] + (customer + [':'] + field);
  }

  lemma {:induction false} PlainBalanceIsScanned(customer: Text)
    ensures Scanned(RedisKey(Resource(None, Budget(customer), "balance_usd")))
  {
    PlainBudgetKey(customer, "balance_usd");
    LastField(Resource(None, Budget(customer), "balance_usd"), "balance_usd");
    BalanceEnding();
    assert "budget" + [':'] == "budget:";
  }

  lemma {:induction false} StartsWithB(r: Resource)
    requires RedisKey(r) != [] && RedisKey(r)[0] == 'b'
    ensures r.tenant == None && r.subject.Budget?
  {
    FirstLetter(r);
    MarkSigns(KindOf(r.subject));
  }

  lemma {:induction false} ScannedIsPlainBalance(r: Resource)
    requires Free(r.field, ':') && Scanned(RedisKey(r))
    ensures r.tenant == None && r.subject.Budget? && r.field == "balance_usd"
  {
    BalanceEnding();
    var key := RedisKey(r);
    assert key[0] == key[..7][0];
    StartsWithB(r);
    LastField(r, "balance_usd");
  }

  lemma {:induction false} BalanceEnding()
    ensures [':'] + "balance_usd" == ":balance_usd"
  {
  }

  /** They are exactly the balances of budgets without tenant. */
  lemma {:induction false} ScanFindsExactlyPlainBalances(r: Resource)
    requires Free(r.field, ':')
    ensures Scanned(RedisKey(r)) <==> r.subject.Budget? && r.tenant == None && r.field == "balance_usd"
  {
    if Scanned(RedisKey(r)) {
      ScannedIsPlainBalance(r);
    } else if r.subject.Budget? && r.tenant == None && r.field == "balance_usd" {
      PlainBalanceIsScanned(r.subject.id);
      assert false;
    }
  }

  /** The id the job reads back from the key is the customer's exactly when that holds no colon. */
  lemma {:induction false} JobReadsTheCustomerExactlyWhen(customer: Text)
    ensures var parts := Split(RedisKey(Resource(None, Budget(customer), "balance_usd")), ':');
      |parts| >= 3 && (parts[1] == customer <==> Free(customer, ':'))
  {
    PlainBudgetKey(customer, "balance_usd");
    var rest := customer + [':'] + "balance_usd";
    SplitHead("budget", rest, ':');
    PartsAreFree([], rest, ':');
    SplitAtLeastTwo(rest, ':', |customer|);
    if Free(customer, ':') {
      SplitHead(customer, "balance_usd", ':');
    }
  }

  lemma {:induction false} SplitAtLeastTwo(t: Text, sep: char, i: nat)
    requires i < |t| && t[i] == sep
    ensures |Split(t, sep)| >= 2
  {
    if |Split(t, sep)| == 1 {
      OnePartIsFree(t, sep);
    }
  }
}

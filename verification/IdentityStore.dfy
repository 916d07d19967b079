/**
 Event identities in Redis (api/ingestion.py): the claim, transition and release scripts, and the
 batch claim that groups a list of identities by shard bucket and scatters the answers back.

 A bucket is a hash of entries beside a sorted set of expiry scores. A field (the digest of an
 event id, taken as the id itself) lives in exactly one bucket, so all buckets together are kept
 as one hash and one score map, and `shardOf` says which bucket a field belongs to.
 */
module IdentityStore {
  import opened Prelude

  datatype Status = Pending | Uncertain | Accepted

  /** The hash value `status:fingerprint`. The three prefixes differ, so the pair is injective. */
  datatype Entry = Entry(status: Status, fp: Digest)

  /** Answers of the claim script: owner, same, pending, uncertain, conflict. */
  datatype Claim = Owner | Same | StillPending | StillUncertain | Conflict

  datatype Slot = Slot(entry: Entry, expiry: int)

  type View = map<Digest, Slot>

  datatype Item = Item(field: Digest, fp: Digest)

  // ---------- one identity ----------

  function Verdict(current: Option<Entry>, fp: Digest): Claim {
    match current
    case None => Owner
    case Some(e) =>
      if e == Entry(Accepted, fp) then Same
      else if e == Entry(Pending, fp) then StillPending
      else if e == Entry(Uncertain, fp) then StillUncertain
      else Conflict
  }

  /** May a transition to `target` under fingerprint `fp` change this entry? */
  predicate Moves(e: Entry, fp: Digest, target: Status) {
    e == Entry(Pending, fp) || (target == Accepted && e == Entry(Uncertain, fp))
  }

  predicate Releasable(e: Entry, fp: Digest) {
    e == Entry(Pending, fp) || e == Entry(Uncertain, fp)
  }

  // ---------- a claim, one identity after the other, on the live view ----------

  function EntryAt(v: View, f: Digest): Option<Entry> {
    if f in v then Some(v[f].entry) else None
  }

  function ClaimStep(v: View, it: Item, expiry: int): (View, Claim) {
    var verdict := Verdict(EntryAt(v, it.field), it.fp);
    (if verdict == Owner then v[it.field := Slot(Entry(Pending, it.fp), expiry)] else v, verdict)
  }

  function ClaimSeq(v: View, items: seq<Item>, expiry: int): (r: (View, seq<Claim>))
    ensures |r.1| == |items|
  {
    if items == [] then (v, [])
    else
      var before := ClaimSeq(v, items[..|items| - 1], expiry);
      var last := ClaimStep(before.0, items[|items| - 1], expiry);
      (last.0, before.1 + [last.1])
  }

  // ---------- what is live ----------

  function Live(v: View, now: int): View {
    map f | f in v && v[f].expiry > now :: v[f]
  }

  /** The bounded cleanup of a script call: expired fields of the called bucket, at most `limit`. */
  ghost predicate Cleanup(v: View, sample: seq<Digest>, now: int, limit: nat) {
    |sample| <= limit && forall f :: f in sample ==> f in v && v[f].expiry <= now
  }

  /** One turn of the claim script's loop on the raw bucket, where expired entries may remain. */
  function RawClaimStep(v: View, it: Item, now: int, expiry: int): (View, Claim) {
    var purged := if it.field in v && v[it.field].expiry <= now then v - {it.field} else v;
    ClaimStep(purged, it, expiry)
  }

  function RawClaimSeq(v: View, items: seq<Item>, now: int, expiry: int): (r: (View, seq<Claim>))
    ensures |r.1| == |items|
  {
    if items == [] then (v, [])
    else
      var before := RawClaimSeq(v, items[..|items| - 1], now, expiry);
      var last := RawClaimStep(before.0, items[|items| - 1], now, expiry);
      (last.0, before.1 + [last.1])
  }

  /** A claim owns a field that is absent or expired, and changes nothing when it does not. */
  lemma {:induction false} RawClaimOwns(v: View, it: Item, now: int, expiry: int)
    ensures
      var (w, answer) := RawClaimStep(v, it, now, expiry);
      && (answer == Owner <==> it.field in v ==> v[it.field].expiry <= now)
      && w == (if answer == Owner then v[it.field := Slot(Entry(Pending, it.fp), expiry)] else v)
  {
  }

  /** Expired leftovers never show: on live views the raw script is the plain sequential claim. */
  lemma {:induction false} RawClaimIsLiveClaim(v: View, items: seq<Item>, now: int, expiry: int)
    requires now < expiry
    ensures Live(RawClaimSeq(v, items, now, expiry).0, now) == ClaimSeq(Live(v, now), items, expiry).0
    ensures RawClaimSeq(v, items, now, expiry).1 == ClaimSeq(Live(v, now), items, expiry).1
  {
    if items != [] {
      RawClaimIsLiveClaim(v, items[..|items| - 1], now, expiry);
      var w := RawClaimSeq(v, items[..|items| - 1], now, expiry).0;
      var it := items[|items| - 1];
      assert EntryAt(if it.field in w && w[it.field].expiry <= now then w - {it.field} else w, it.field)
          == EntryAt(Live(w, now), it.field);
    }
  }

  /** Whatever expired fields a cleanup removes, the live view is untouched. */
  lemma {:induction false} CleanupIsInvisible(v: View, gone: set<Digest>, now: int)
    requires forall f :: f in gone && f in v ==> v[f].expiry <= now
    ensures Live(v - gone, now) == Live(v, now)
  {
  }

  // ---------- transition and release on a bucket ----------

  function TransitionStep(v: View, it: Item, target: Status, expiry: int): (View, nat) {
    if it.field !in v then (v, 0)
    else if Moves(v[it.field].entry, it.fp, target) then
      (v[it.field := Slot(Entry(target, it.fp), expiry)], 1)
    else (v, if v[it.field].entry == Entry(target, it.fp) then 1 else 0)
  }

  function TransitionSeq(v: View, items: seq<Item>, target: Status, expiry: int): (r: (View, nat))
    ensures r.1 <= |items|
  {
    if items == [] then (v, 0)
    else
      var before := TransitionSeq(v, items[..|items| - 1], target, expiry);
      var last := TransitionStep(before.0, items[|items| - 1], target, expiry);
      (last.0, before.1 + last.1)
  }

  function ReleaseStep(v: View, it: Item): View {
    if it.field in v && Releasable(v[it.field].entry, it.fp) then v - {it.field} else v
  }

  function ReleaseSeq(v: View, items: seq<Item>): View {
    if items == [] then v
    else ReleaseStep(ReleaseSeq(v, items[..|items| - 1]), items[|items| - 1])
  }

  /** Accepted is final for both scripts, and no script changes the fingerprint of an entry. */
  lemma {:induction false} AcceptedIsFinal(v: View, items: seq<Item>, target: Status, expiry: int, f: Digest)
    requires target != Pending && f in v
    ensures
      var t := TransitionSeq(v, items, target, expiry).0;
      f in t && t[f].entry.fp == v[f].entry.fp && (v[f].entry.status == Accepted ==> t[f] == v[f])
    ensures
      var r := ReleaseSeq(v, items);
      (f in r ==> r[f] == v[f]) && (v[f].entry.status == Accepted ==> f in r)
  {
    if items != [] {
      AcceptedIsFinal(v, items[..|items| - 1], target, expiry, f);
    }
  }

  /** A live entry survives every claim unchanged. */
  lemma {:induction false} ClaimKeepsLiveEntries(v: View, items: seq<Item>, expiry: int, f: Digest)
    requires f in v
    ensures var c := ClaimSeq(v, items, expiry).0; f in c && c[f] == v[f]
  {
    if items != [] {
      ClaimKeepsLiveEntries(v, items[..|items| - 1], expiry, f);
    }
  }

  // ---------- what the scripts do, status by status ----------

  /** The answer of a claim: owner where nothing is, conflict on another fingerprint, else by status. */
  lemma {:induction false} VerdictByStatus(current: Option<Entry>, fp: Digest)
    ensures Verdict(current, fp) == Owner <==> current == None
    ensures Verdict(current, fp) == Conflict <==> current.Some? && current.value.fp != fp
    ensures Verdict(current, fp) == Same <==> current == Some(Entry(Accepted, fp))
    ensures Verdict(current, fp) == StillPending <==> current == Some(Entry(Pending, fp))
    ensures Verdict(current, fp) == StillUncertain <==> current == Some(Entry(Uncertain, fp))
  {
    match current
    case None =>
    case Some(Entry(status, held)) =>
      match status
      case Pending => assert held == fp ==> Verdict(current, fp) == StillPending;
      case Uncertain => assert held == fp ==> Verdict(current, fp) == StillUncertain;
      case Accepted => assert held == fp ==> Verdict(current, fp) == Same;
  }

  /** Is the item's field there, under the item's fingerprint? */
  predicate Holds(v: View, it: Item) {
    it.field in v && v[it.field].entry.fp == it.fp
  }

  /** The items that are there under their fingerprint and not in status `but`. */
  ghost function Matching(v: View, items: seq<Item>, but: Option<Status>): set<nat> {
    set k: nat | k < |items| && Holds(v, items[k]) && Some(v[items[k].field].entry.status) != but
  }

  lemma {:induction false} MatchingSnoc(v: View, items: seq<Item>, but: Option<Status>)
    requires items != []
    ensures
      var it := items[|items| - 1];
      |Matching(v, items, but)| == |Matching(v, items[..|items| - 1], but)|
        + if Holds(v, it) && Some(v[it.field].entry.status) != but then 1 else 0
  {
    var n := |items| - 1;
    var here, before := Matching(v, items, but), Matching(v, items[..n], but);
    assert n !in before;
    assert here == before + if n in here then {n} else {};
  }

  /**
   A transition to accepted leaves every entry it names under its fingerprint accepted, whatever its
   status was, and no other entry changed.
   */
  lemma {:induction false} FinalizeAt(v: View, items: seq<Item>, expiry: int, f: Digest)
    ensures
      var t := TransitionSeq(v, items, Accepted, expiry).0;
      && (f in t <==> f in v)
      && (f in v ==> t[f] == if v[f].entry.status != Accepted && Item(f, v[f].entry.fp) in items
                             then Slot(Entry(Accepted, v[f].entry.fp), expiry) else v[f])
  {
    if items != [] {
      var n := |items| - 1;
      FinalizeAt(v, items[..n], expiry, f);
      assert items == items[..n] + [items[n]];
    }
  }

  /** A transition to uncertain does so to the pending entries it names, and to nothing else. */
  lemma {:induction false} MarkAt(v: View, items: seq<Item>, expiry: int, f: Digest)
    ensures
      var t := TransitionSeq(v, items, Uncertain, expiry).0;
      && (f in t <==> f in v)
      && (f in v ==> t[f] == if v[f].entry.status == Pending && Item(f, v[f].entry.fp) in items
                             then Slot(Entry(Uncertain, v[f].entry.fp), expiry) else v[f])
  {
    if items != [] {
      var n := |items| - 1;
      MarkAt(v, items[..n], expiry, f);
      assert items == items[..n] + [items[n]];
    }
  }

  lemma {:induction false} ReleaseStepAt(v: View, it: Item, f: Digest)
    ensures
      var r := ReleaseStep(v, it);
      && (f in r <==> f in v && (v[f].entry.status == Accepted || it != Item(f, v[f].entry.fp)))
      && (f in r ==> r[f] == v[f])
  {
    assert f in v ==> v[f].entry == Entry(v[f].entry.status, v[f].entry.fp);
  }

  /** A release drops the pending and uncertain entries it names, and nothing else. */
  lemma {:induction false} ReleaseAt(v: View, items: seq<Item>, f: Digest)
    ensures
      var r := ReleaseSeq(v, items);
      && (f in r <==> f in v && (v[f].entry.status == Accepted || Item(f, v[f].entry.fp) !in items))
      && (f in r ==> r[f] == v[f])
  {
    if items != [] {
      var n := |items| - 1;
      ReleaseAt(v, items[..n], f);
      ReleaseStepAt(ReleaseSeq(v, items[..n]), items[n], f);
      assert f in v ==> (Item(f, v[f].entry.fp) in items <==>
                           Item(f, v[f].entry.fp) in items[..n] || Item(f, v[f].entry.fp) == items[n]);
    }
  }

  /** Exactly the named entries that were pending or uncertain are accepted anew; the others stay. */
  ghost predicate Finalizes(v: View, items: seq<Item>, expiry: int, w: View) {
    && w.Keys == v.Keys
    && forall f :: f in v ==> w[f] == if v[f].entry.status != Accepted && Item(f, v[f].entry.fp) in items
                                      then Slot(Entry(Accepted, v[f].entry.fp), expiry) else v[f]
  }

  /** Exactly the named entries that were pending are uncertain; the others stay. */
  ghost predicate Marks(v: View, items: seq<Item>, expiry: int, w: View) {
    && w.Keys == v.Keys
    && forall f :: f in v ==> w[f] == if v[f].entry.status == Pending && Item(f, v[f].entry.fp) in items
                                      then Slot(Entry(Uncertain, v[f].entry.fp), expiry) else v[f]
  }

  /** Exactly the named entries that were not accepted are gone; the others stay. */
  ghost predicate Frees(v: View, items: seq<Item>, w: View) {
    && w.Keys <= v.Keys
    && forall f :: f in v ==>
         if v[f].entry.status != Accepted && Item(f, v[f].entry.fp) in items then f !in w else f in w && w[f] == v[f]
  }

  lemma {:induction false} TransitionSays(v: View, items: seq<Item>, expiry: int)
    ensures Finalizes(v, items, expiry, TransitionSeq(v, items, Accepted, expiry).0)
    ensures Marks(v, items, expiry, TransitionSeq(v, items, Uncertain, expiry).0)
  {
    forall f
      ensures f in TransitionSeq(v, items, Accepted, expiry).0 <==> f in v
      ensures f in TransitionSeq(v, items, Uncertain, expiry).0 <==> f in v
    {
      FinalizeAt(v, items, expiry, f);
      MarkAt(v, items, expiry, f);
    }
    forall f | f in v
      ensures TransitionSeq(v, items, Accepted, expiry).0[f] ==
        if v[f].entry.status != Accepted && Item(f, v[f].entry.fp) in items
        then Slot(Entry(Accepted, v[f].entry.fp), expiry) else v[f]
      ensures TransitionSeq(v, items, Uncertain, expiry).0[f] ==
        if v[f].entry.status == Pending && Item(f, v[f].entry.fp) in items
        then Slot(Entry(Uncertain, v[f].entry.fp), expiry) else v[f]
    {
      FinalizeAt(v, items, expiry, f);
      MarkAt(v, items, expiry, f);
    }
  }

  lemma {:induction false} ReleaseSays(v: View, items: seq<Item>)
    ensures Frees(v, items, ReleaseSeq(v, items))
  {
    forall f
      ensures f in ReleaseSeq(v, items) ==> f in v
      ensures f in v ==>
        if v[f].entry.status != Accepted && Item(f, v[f].entry.fp) in items then f !in ReleaseSeq(v, items)
        else f in ReleaseSeq(v, items) && ReleaseSeq(v, items)[f] == v[f]
    {
      ReleaseAt(v, items, f);
    }
  }

  /** What a transition to accepted counts: every item that is there, accepted already or not. */
  lemma {:induction false} FinalizeMatches(v: View, items: seq<Item>, expiry: int)
    ensures TransitionSeq(v, items, Accepted, expiry).1 == |Matching(v, items, None)|
    ensures TransitionSeq(v, items, Accepted, expiry).1 == |items| <==>
      forall k :: 0 <= k < |items| ==> Holds(v, items[k])
  {
    if items != [] {
      var n := |items| - 1;
      FinalizeMatches(v, items[..n], expiry);
      FinalizeAt(v, items[..n], expiry, items[n].field);
      MatchingSnoc(v, items, None);
      assert forall k :: 0 <= k < n ==> items[..n][k] == items[k];
    }
  }

  /** What a transition to uncertain counts: the items that are there, but for the accepted ones. */
  lemma {:induction false} MarkMatches(v: View, items: seq<Item>, expiry: int)
    ensures TransitionSeq(v, items, Uncertain, expiry).1 == |Matching(v, items, Some(Accepted))|
  {
    if items != [] {
      var n := |items| - 1;
      MarkMatches(v, items[..n], expiry);
      MarkAt(v, items[..n], expiry, items[n].field);
      MatchingSnoc(v, items, Some(Accepted));
    }
  }

  /** What a transition changes and what it counts, by target. */
  ghost predicate Transitions(v: View, items: seq<Item>, target: Status, expiry: int, w: View, matched: nat) {
    && (target == Accepted ==> Finalizes(v, items, expiry, w) && matched == |Matching(v, items, None)|)
    && (target == Uncertain ==> Marks(v, items, expiry, w) && matched == |Matching(v, items, Some(Accepted))|)
  }

  lemma {:induction false} TransitionDoes(v: View, items: seq<Item>, target: Status, expiry: int)
    ensures var t := TransitionSeq(v, items, target, expiry); Transitions(v, items, target, expiry, t.0, t.1)
  {
    TransitionSays(v, items, expiry);
    FinalizeMatches(v, items, expiry);
    MarkMatches(v, items, expiry);
  }

  /** The first item of a list for a field. */
  ghost predicate FirstFor(items: seq<Item>, j: nat, f: Digest) {
    j < |items| && items[j].field == f && forall k :: 0 <= k < j ==> items[k].field != f
  }

  lemma {:induction false} FirstForPrefix(items: seq<Item>, j: nat, f: Digest)
    requires items != [] && FirstFor(items, j, f)
    ensures j < |items| - 1 ==> FirstFor(items[..|items| - 1], j, f)
  {
  }

  /** A field of the list has a first item. */
  lemma {:induction false} FirstForExists(items: seq<Item>, k: nat, f: Digest)
    requires k < |items| && items[k].field == f
    ensures exists j: nat :: FirstFor(items, j, f)
  {
    if i: nat :| i < k && items[i].field == f {
      FirstForExists(items, i, f);
    } else {
      assert FirstFor(items, k, f);
    }
  }

  /** A list of claims keeps what was there and leaves nothing that it does not name. */
  lemma {:induction false} ClaimAdds(v: View, items: seq<Item>, expiry: int, f: Digest)
    ensures
      var c := ClaimSeq(v, items, expiry).0;
      && (f in v ==> f in c && c[f] == v[f])
      && (f in c && f !in v ==> exists k: nat :: k < |items| && items[k].field == f)
  {
    if items != [] {
      var n := |items| - 1;
      ClaimAdds(v, items[..n], expiry, f);
      if k: nat :| k < n && items[..n][k].field == f {
        assert items[k].field == f;
      }
    }
  }

  /** Under a name that was absent it leaves a pending entry with the first item's fingerprint. */
  lemma {:induction false} ClaimAt(v: View, items: seq<Item>, expiry: int, j: nat, f: Digest)
    requires f !in v && FirstFor(items, j, f)
    ensures
      var c := ClaimSeq(v, items, expiry).0;
      f in c && c[f] == Slot(Entry(Pending, items[j].fp), expiry)
  {
    var n := |items| - 1;
    FirstForPrefix(items, j, f);
    if j < n {
      ClaimAt(v, items[..n], expiry, j, f);
    } else {
      ClaimAdds(v, items[..n], expiry, f);
    }
  }

  /**
   The answers of a list of claims: by the entry that was there, else the first item of a field owns
   it, and a later one finds it pending under the first one's fingerprint.
   */
  lemma {:induction false} ClaimAnswerAt(v: View, items: seq<Item>, expiry: int, k: nat, j: nat)
    requires k < |items| && FirstFor(items, j, items[k].field)
    ensures
      var answer := ClaimSeq(v, items, expiry).1[k];
      answer ==
        if items[k].field in v then Verdict(Some(v[items[k].field].entry), items[k].fp)
        else if j == k then Owner
        else if items[j].fp == items[k].fp then StillPending else Conflict
  {
    var n := |items| - 1;
    FirstForPrefix(items, j, items[k].field);
    if k < n {
      assert items[..n][k] == items[k];
      ClaimAnswerAt(v, items[..n], expiry, k, j);
    } else {
      ClaimAdds(v, items[..n], expiry, items[n].field);
      if j < n && items[n].field !in v {
        ClaimAt(v, items[..n], expiry, j, items[n].field);
      }
    }
  }

  /** Live is exactly what has not expired. */
  lemma {:induction false} LiveIsUnexpired(v: View, now: int, f: Digest)
    ensures f in Live(v, now) <==> f in v && now < v[f].expiry
    ensures f in Live(v, now) ==> Live(v, now)[f] == v[f]
  {
  }

  lemma {:induction false} SingleItemCalls(v: View, it: Item, target: Status, expiry: int)
    ensures TransitionSeq(v, [it], target, expiry) == TransitionStep(v, it, target, expiry)
    ensures ReleaseSeq(v, [it]) == ReleaseStep(v, it)
    ensures ClaimSeq(v, [it], expiry) == (ClaimStep(v, it, expiry).0, [ClaimStep(v, it, expiry).1])
  {
    assert [it][..|[it]| - 1] == [];
    assert TransitionSeq(v, [], target, expiry) == (v, 0);
    assert ClaimSeq(v, [], expiry) == (v, []);
    assert [] + [ClaimStep(v, it, expiry).1] == [ClaimStep(v, it, expiry).1];
  }

  // ---------- grouping by bucket ----------

  datatype Member = Member(index: nat, item: Item)

  /** The members of one bucket, in the order of the list. */
  ghost function Members(items: seq<Item>, shardOf: Digest -> nat, s: nat): seq<Member> {
    if items == [] then []
    else
      var n := |items| - 1;
      var before := Members(items[..n], shardOf, s);
      if shardOf(items[n].field) == s then before + [Member(n, items[n])] else before
  }

  ghost function Items(ms: seq<Member>): seq<Item> {
    seq(|ms|, i requires 0 <= i < |ms| => ms[i].item)
  }

  lemma {:induction false} MembersIndex(items: seq<Item>, shardOf: Digest -> nat, s: nat)
    ensures forall m :: m in Members(items, shardOf, s) ==>
              m.index < |items| && items[m.index] == m.item && shardOf(m.item.field) == s
    ensures forall i :: 0 <= i < |items| && shardOf(items[i].field) == s ==>
              Member(i, items[i]) in Members(items, shardOf, s)
  {
    if items != [] {
      MembersIndex(items[..|items| - 1], shardOf, s);
    }
  }

  /** Two views agree on every field of a bucket. */
  ghost predicate AgreeOn(v: View, w: View, shardOf: Digest -> nat, s: nat) {
    forall f :: shardOf(f) == s ==> (f in v <==> f in w) && (f in v ==> v[f] == w[f])
  }

  /**
   A bucket only sees its own fields: claiming just its members gives each of them the answer the
   whole list would have given, and leaves the bucket as the whole list would have left it.
   */
  lemma {:induction false} BucketLocality(
    v: View, w: View, items: seq<Item>, shardOf: Digest -> nat, s: nat, expiry: int)
    requires AgreeOn(v, w, shardOf, s)
    ensures
      var ms := Members(items, shardOf, s);
      var whole := ClaimSeq(v, items, expiry);
      var own := ClaimSeq(w, Items(ms), expiry);
      && AgreeOn(whole.0, own.0, shardOf, s)
      && Answers(ms, own.1, whole.1)
  {
    if items != [] {
      var n := |items| - 1;
      var ms := Members(items[..n], shardOf, s);
      BucketLocality(v, w, items[..n], shardOf, s, expiry);
      MembersIndex(items[..n], shardOf, s);
      var whole, own := ClaimSeq(v, items[..n], expiry), ClaimSeq(w, Items(ms), expiry);
      AgreeStep(whole.0, own.0, items[n], shardOf, s, expiry);
      if shardOf(items[n].field) == s {
        ItemsSnoc(ms, Member(n, items[n]));
      } else {
        AnswersGrow(ms, own.1, whole.1, ClaimStep(whole.0, items[n], expiry).1);
      }
    }
  }

  /** `own` lists, member by member, the answers `whole` holds at the members' indices. */
  ghost predicate Answers(ms: seq<Member>, own: seq<Claim>, whole: seq<Claim>) {
    |own| == |ms| && forall k :: 0 <= k < |ms| ==> ms[k].index < |whole| && own[k] == whole[ms[k].index]
  }

  lemma {:induction false} AnswersGrow(ms: seq<Member>, own: seq<Claim>, whole: seq<Claim>, c: Claim)
    requires Answers(ms, own, whole)
    ensures Answers(ms, own, whole + [c])
  {
  }

  lemma {:induction false} AgreeStep(v: View, w: View, it: Item, shardOf: Digest -> nat, s: nat, expiry: int)
    requires AgreeOn(v, w, shardOf, s)
    ensures shardOf(it.field) != s ==> AgreeOn(ClaimStep(v, it, expiry).0, w, shardOf, s)
    ensures shardOf(it.field) == s ==>
              && AgreeOn(ClaimStep(v, it, expiry).0, ClaimStep(w, it, expiry).0, shardOf, s)
              && ClaimStep(v, it, expiry).1 == ClaimStep(w, it, expiry).1
  {
  }

  lemma {:induction false} ItemsSnoc(ms: seq<Member>, m: Member)
    ensures Items(ms + [m]) == Items(ms) + [m.item]
  {
  }

  lemma {:induction false} RawClaimStaysInBucket(
    v: View, items: seq<Item>, now: int, expiry: int, shardOf: Digest -> nat, s: nat, t: nat)
    requires t != s && forall it :: it in items ==> shardOf(it.field) == s
    ensures AgreeOn(RawClaimSeq(v, items, now, expiry).0, v, shardOf, t)
  {
    if items != [] {
      assert items[|items| - 1] in items;
      RawClaimStaysInBucket(v, items[..|items| - 1], now, expiry, shardOf, s, t);
    }
  }

  lemma {:induction false} OtherBuckets(
    v: View, gone: set<Digest>, items: seq<Item>, now: int, expiry: int, shardOf: Digest -> nat, s: nat)
    requires forall f :: f in gone ==> shardOf(f) == s
    ensures forall t :: t != s ==>
              AgreeOn(RawClaimSeq(v - gone, Items(Members(items, shardOf, s)), now, expiry).0, v, shardOf, t)
  {
    var ms := Members(items, shardOf, s);
    MembersIndex(items, shardOf, s);
    assert forall i :: 0 <= i < |ms| ==> ms[i] in ms;
    forall t | t != s
      ensures AgreeOn(RawClaimSeq(v - gone, Items(ms), now, expiry).0, v, shardOf, t)
    {
      RawClaimStaysInBucket(v - gone, Items(ms), now, expiry, shardOf, s, t);
    }
  }

  /** One script call, seen from the live view: the bucket gets what the whole list gives it. */
  lemma {:induction false} BucketCall(
    items: seq<Item>, live: View, before: View, gone: set<Digest>, shardOf: Digest -> nat, s: nat,
    now: int, expiry: int)
    requires now < expiry && AgreeOn(live, Live(before, now), shardOf, s)
    requires forall f :: f in gone ==> f in before && before[f].expiry <= now
    ensures
      var ms := Members(items, shardOf, s);
      var call := RawClaimSeq(before - gone, Items(ms), now, expiry);
      var whole := ClaimSeq(live, items, expiry);
      AgreeOn(whole.0, Live(call.0, now), shardOf, s) && Answers(ms, call.1, whole.1)
  {
    RawClaimIsLiveClaim(before - gone, Items(Members(items, shardOf, s)), now, expiry);
    CleanupIsInvisible(before, gone, now);
    BucketLocality(live, Live(before, now), items, shardOf, s, expiry);
  }

  lemma {:induction false} NoMembers(items: seq<Item>, shardOf: Digest -> nat, s: nat)
    requires forall i :: 0 <= i < |items| ==> shardOf(items[i].field) != s
    ensures Members(items, shardOf, s) == []
  {
    if items != [] {
      NoMembers(items[..|items| - 1], shardOf, s);
    }
  }

  /** The answers filled in so far are right. */
  ghost predicate RightSoFar(filled: seq<Option<Claim>>, whole: seq<Claim>) {
    |filled| == |whole| && forall i :: 0 <= i < |filled| ==> filled[i] == None || filled[i] == Some(whole[i])
  }

  ghost predicate FilledFor(filled: seq<Option<Claim>>, ms: seq<Member>) {
    forall m :: m in ms ==> m.index < |filled| && filled[m.index].Some?
  }

  /** The buckets in Redis. Hash fields and expiry scores always have the same domain. */
  class Buckets {
    var hash: map<Digest, Entry>
    var scores: map<Digest, int>
    const shardOf: Digest -> nat

    ghost predicate Valid()
      reads this
    {
      hash.Keys == scores.Keys
    }

    ghost function Raw(): View
      reads this
      requires Valid()
    {
      map f | f in hash :: Slot(hash[f], scores[f])
    }

    constructor (shardOf: Digest -> nat)
      ensures Valid() && Raw() == map[] && this.shardOf == shardOf
    {
      this.shardOf := shardOf;
      hash, scores := map[], map[];
    }

    /** CLAIM_EVENT_IDS_SCRIPT: `expired` is what ZRANGEBYSCORE with LIMIT happened to return. */
    method ClaimScript(now: int, pendingExpiry: int, expired: seq<Digest>, items: seq<Item>)
      returns (results: seq<Claim>)
      requires Valid()
      requires forall f :: f in expired ==> f in hash && scores[f] <= now
      modifies this
      ensures Valid()
      ensures
        var spec := RawClaimSeq(old(Raw()) - Elements(expired), items, now, pendingExpiry);
        Raw() == spec.0 && results == spec.1
    {
      RemoveExpired(expired);
      ghost var purged := Raw();
      results := [];
      for i := 0 to |items|
        invariant Valid()
        invariant (Raw(), results) == RawClaimSeq(purged, items[..i], now, pendingExpiry)
      {
        assert items[..i + 1][..i] == items[..i];
        var result := ClaimField(items[i].field, items[i].fp, now, pendingExpiry);
        results := results + [result];
      }
      assert items[..|items|] == items;
    }

    /** The first loop of the claim script. */
    method RemoveExpired(expired: seq<Digest>)
      requires Valid()
      modifies this
      ensures Valid() && Raw() == old(Raw()) - Elements(expired)
    {
      for i := 0 to |expired|
        invariant Valid() && Raw() == old(Raw()) - Elements(expired[..i])
      {
        ghost var before := Raw();
        hash, scores := hash - {expired[i]}, scores - {expired[i]};
        ElementsSnoc(expired, i);
        assert Raw() == before - {expired[i]};
        assert before - {expired[i]} == old(Raw()) - Elements(expired[..i + 1]);
      }
      assert expired[..|expired|] == expired;
    }

    /** One turn of the second loop of the claim script. */
    method ClaimField(field: Digest, fp: Digest, now: int, pendingExpiry: int) returns (result: Claim)
      requires Valid()
      modifies this
      ensures Valid()
      ensures (Raw(), result) == RawClaimStep(old(Raw()), Item(field, fp), now, pendingExpiry)
    {
      if field in hash && field in scores && scores[field] <= now {
        hash, scores := hash - {field}, scores - {field};
        assert Raw() == old(Raw()) - {field};
      }
      ghost var purged := Raw();
      if field !in hash {
        hash, scores := hash[field := Entry(Pending, fp)], scores[field := pendingExpiry];
        assert Raw() == purged[field := Slot(Entry(Pending, fp), pendingExpiry)];
        result := Owner;
      } else if hash[field] == Entry(Accepted, fp) {
        result := Same;
      } else if hash[field] == Entry(Pending, fp) {
        result := StillPending;
      } else if hash[field] == Entry(Uncertain, fp) {
        result := StillUncertain;
      } else {
        result := Conflict;
      }
    }

    /** TRANSITION_EVENT_IDS_SCRIPT. */
    method TransitionScript(items: seq<Item>, target: Status, expiry: int) returns (matched: nat)
      requires Valid() && target != Pending
      modifies this
      ensures Valid()
      ensures Raw() == TransitionSeq(old(Raw()), items, target, expiry).0
      ensures matched == TransitionSeq(old(Raw()), items, target, expiry).1
      ensures Transitions(old(Raw()), items, target, expiry, Raw(), matched)
    {
      TransitionDoes(Raw(), items, target, expiry);
      matched := 0;
      for i := 0 to |items|
        invariant Valid()
        invariant Raw() == TransitionSeq(old(Raw()), items[..i], target, expiry).0
        invariant matched == TransitionSeq(old(Raw()), items[..i], target, expiry).1
      {
        assert items[..i + 1][..i] == items[..i];
        var counted := TransitionField(items[i].field, items[i].fp, target, expiry);
        matched := matched + counted;
      }
      assert items[..|items|] == items;
    }

    /** One turn of the loop of the transition script. */
    method TransitionField(field: Digest, fp: Digest, target: Status, expiry: int) returns (counted: nat)
      requires Valid()
      modifies this
      ensures Valid()
      ensures (Raw(), counted) == TransitionStep(old(Raw()), Item(field, fp), target, expiry)
    {
      counted := 0;
      var allowed := field in hash && hash[field] == Entry(Pending, fp);
      if target == Accepted {
        allowed := allowed || (field in hash && hash[field] == Entry(Uncertain, fp));
      }
      if allowed {
        hash, scores := hash[field := Entry(target, fp)], scores[field := expiry];
        counted := 1;
        assert Raw() == old(Raw())[field := Slot(Entry(target, fp), expiry)];
      } else if field in hash && hash[field] == Entry(target, fp) {
        counted := 1;
      }
    }

    /** RELEASE_EVENT_IDS_SCRIPT. */
    method ReleaseScript(items: seq<Item>) returns (changed: nat)
      requires Valid()
      modifies this
      ensures Valid()
      ensures Raw() == ReleaseSeq(old(Raw()), items)
      ensures Frees(old(Raw()), items, Raw())
      ensures changed == |old(Raw())| - |Raw()|
    {
      ReleaseSays(Raw(), items);
      changed := 0;
      for i := 0 to |items|
        invariant Valid()
        invariant Raw() == ReleaseSeq(old(Raw()), items[..i])
        invariant changed == |old(Raw())| - |Raw()|
      {
        assert items[..i + 1][..i] == items[..i];
        var released := ReleaseField(items[i].field, items[i].fp);
        changed := changed + released;
      }
      assert items[..|items|] == items;
    }

    /** One turn of the loop of the release script. */
    method ReleaseField(field: Digest, fp: Digest) returns (changed: nat)
      requires Valid()
      modifies this
      ensures Valid()
      ensures Raw() == ReleaseStep(old(Raw()), Item(field, fp))
      ensures changed == |old(Raw())| - |Raw()|
    {
      changed := 0;
      if field in hash && (hash[field] == Entry(Pending, fp) || hash[field] == Entry(Uncertain, fp)) {
        hash, scores := hash - {field}, scores - {field};
        changed := 1;
        assert Raw() == old(Raw()) - {field};
        assert old(Raw()).Keys == Raw().Keys + {field};
      }
    }

    /** _group_identities: a dict from bucket to members, keyed in order of first appearance. */
    method GroupIdentities(items: seq<Item>) returns (order: seq<nat>, groups: map<nat, seq<Member>>)
      ensures forall s :: s in groups <==> s in order
      ensures forall g, h :: 0 <= g < h < |order| ==> order[g] != order[h]
      ensures forall s :: s in groups ==> groups[s] == Members(items, shardOf, s)
      ensures forall i :: 0 <= i < |items| ==> shardOf(items[i].field) in groups && shardOf(items[i].field) in order
    {
      order, groups := [], map[];
      for i := 0 to |items|
        invariant forall s :: s in groups <==> s in order
        invariant forall g, h :: 0 <= g < h < |order| ==> order[g] != order[h]
        invariant forall s :: s in groups ==> groups[s] == Members(items[..i], shardOf, s)
        invariant forall j :: 0 <= j < i ==> shardOf(items[j].field) in groups
      {
        assert items[..i + 1][..i] == items[..i];
        var s := shardOf(items[i].field);
        if s !in groups {
          NoMembers(items[..i], shardOf, s);
          order, groups := order + [s], groups[s := []];
        }
        groups := groups[s := groups[s] + [Member(i, items[i])]];
      }
      assert items[..|items|] == items;
    }

    /**
     event_identity_status_batch: one script call per bucket, then the answers scattered by index.
     `cleanup(s)` is the sample bucket s happens to clean up. Whatever it is, the answers and the
     live view are those of claiming the identities one at a time in the order of the list.
     */
    method StatusBatch(items: seq<Item>, now: int, pendingTtl: int, limit: nat, cleanup: nat -> seq<Digest>)
      returns (results: seq<Claim>)
      requires Valid() && pendingTtl > 0
      requires forall s :: Cleanup(Raw(), cleanup(s), now, limit)
      requires forall s, f :: f in cleanup(s) ==> shardOf(f) == s
      modifies this
      ensures Valid()
      ensures Live(Raw(), now) == ClaimSeq(old(Live(Raw(), now)), items, now + pendingTtl).0
      ensures results == ClaimSeq(old(Live(Raw(), now)), items, now + pendingTtl).1
    {
      ghost var start := Raw();
      ghost var whole := ClaimSeq(Live(start, now), items, now + pendingTtl);
      var order, groups := GroupIdentities(items);
      var states := ClaimBuckets(items, start, whole, order, groups, now, pendingTtl, cleanup);
      EachIsPlaced(items, shardOf, groups);
      results := ScatterAnswers(order, groups, states, whole.1, |items|);
    }

    /** The pipeline of the batch claim, one script call per bucket. */
    method ClaimBuckets(
      ghost items: seq<Item>, ghost start: View, ghost whole: (View, seq<Claim>), order: seq<nat>,
      groups: map<nat, seq<Member>>, now: int, pendingTtl: int, cleanup: nat -> seq<Digest>)
      returns (states: seq<seq<Claim>>)
      requires Valid() && pendingTtl > 0
      requires forall s :: s in order ==> s in groups && groups[s] == Members(items, shardOf, s)
      requires forall i, j :: 0 <= i < j < |order| ==> order[i] != order[j]
      requires forall i :: 0 <= i < |items| ==> shardOf(items[i].field) in order
      requires start == Raw() && whole == ClaimSeq(Live(start, now), items, now + pendingTtl)
      requires forall s, f :: f in cleanup(s) ==> shardOf(f) == s && f in start && start[f].expiry <= now
      modifies this
      ensures Valid()
      ensures Live(Raw(), now) == whole.0
      ensures AnsweredUpTo(order, groups, states, whole.1, |order|)
    {
      states := ClaimGroups(items, start, whole, order, groups, now, pendingTtl, cleanup);
      AllDone(items, start, whole.0, Raw(), now, now + pendingTtl, shardOf, order);
    }

    method ClaimGroups(
      ghost items: seq<Item>, ghost start: View, ghost whole: (View, seq<Claim>), order: seq<nat>,
      groups: map<nat, seq<Member>>, now: int, pendingTtl: int, cleanup: nat -> seq<Digest>)
      returns (states: seq<seq<Claim>>)
      requires Valid() && pendingTtl > 0
      requires start == Raw() && whole == ClaimSeq(Live(start, now), items, now + pendingTtl)
      requires forall s :: s in order ==> s in groups && groups[s] == Members(items, shardOf, s)
      requires forall i, j :: 0 <= i < j < |order| ==> order[i] != order[j]
      requires forall s, f :: f in cleanup(s) ==> shardOf(f) == s && f in start && start[f].expiry <= now
      modifies this
      ensures Valid()
      ensures Progress(whole.0, start, Raw(), now, shardOf, order, |order|)
      ensures AnsweredUpTo(order, groups, states, whole.1, |order|)
    {
      states := [];
      for g := 0 to |order|
        invariant Valid()
        invariant Progress(whole.0, start, Raw(), now, shardOf, order, g)
        invariant AnsweredUpTo(order, groups, states, whole.1, g)
      {
        states := ClaimGroup(items, start, order, groups, g, states, now, pendingTtl, cleanup(order[g]));
      }
    }

    /** One turn of the pipeline. */
    method ClaimGroup(
      ghost items: seq<Item>, ghost start: View, order: seq<nat>, groups: map<nat, seq<Member>>, g: nat,
      states: seq<seq<Claim>>, now: int, pendingTtl: int, expired: seq<Digest>)
      returns (after: seq<seq<Claim>>)
      requires Valid() && pendingTtl > 0
      requires g < |order| && forall i, j :: 0 <= i < j < |order| ==> order[i] != order[j]
      requires order[g] in groups && groups[order[g]] == Members(items, shardOf, order[g])
      requires Progress(ClaimSeq(Live(start, now), items, now + pendingTtl).0, start, Raw(), now, shardOf, order, g)
      requires AnsweredUpTo(order, groups, states, ClaimSeq(Live(start, now), items, now + pendingTtl).1, g)
      requires forall f :: f in expired ==> shardOf(f) == order[g] && f in start && start[f].expiry <= now
      modifies this
      ensures Valid()
      ensures Progress(ClaimSeq(Live(start, now), items, now + pendingTtl).0, start, Raw(), now, shardOf, order, g + 1)
      ensures AnsweredUpTo(order, groups, after, ClaimSeq(Live(start, now), items, now + pendingTtl).1, g + 1)
    {
      var answers := ClaimBucket(items, start, order, g, groups[order[g]], now, pendingTtl, expired);
      after := states + [answers];
    }

    /** One `pipe.eval` of the batch claim: the script call for group `g`, with that bucket's members. */
    method ClaimBucket(
      ghost items: seq<Item>, ghost start: View, ghost order: seq<nat>, ghost g: nat, members: seq<Member>,
      now: int, pendingTtl: int, expired: seq<Digest>)
      returns (answers: seq<Claim>)
      requires Valid() && pendingTtl > 0
      requires g < |order| && forall i, j :: 0 <= i < j < |order| ==> order[i] != order[j]
      requires members == Members(items, shardOf, order[g])
      requires Progress(ClaimSeq(Live(start, now), items, now + pendingTtl).0, start, Raw(), now, shardOf, order, g)
      requires forall f :: f in expired ==> shardOf(f) == order[g] && f in start && start[f].expiry <= now
      modifies this
      ensures Valid()
      ensures Progress(ClaimSeq(Live(start, now), items, now + pendingTtl).0, start, Raw(), now, shardOf, order, g + 1)
      ensures Answers(members, answers, ClaimSeq(Live(start, now), items, now + pendingTtl).1)
    {
      var own := seq(|members|, i requires 0 <= i < |members| => members[i].item);
      assert own == Items(members);
      var expiry := now + pendingTtl;
      ghost var before, gone, s := Raw(), Elements(expired), order[g];
      ghost var whole := ClaimSeq(Live(start, now), items, expiry).0;
      ProgressFrame(whole, start, before, now, shardOf, order, g);
      assert forall f :: f in expired ==> f in before && before[f] == start[f];
      answers := ClaimScript(now, expiry, expired, own);
      BucketCall(items, Live(start, now), before, gone, shardOf, s, now, expiry);
      OtherBuckets(before, gone, items, now, expiry, shardOf, s);
      ProgressStep(whole, start, before, Raw(), now, shardOf, order, g);
    }

    /** The scatter loop at the end of event_identity_status_batch. */
    method ScatterAnswers(
      order: seq<nat>, groups: map<nat, seq<Member>>, states: seq<seq<Claim>>, ghost whole: seq<Claim>,
      count: nat)
      returns (results: seq<Claim>)
      requires |whole| == count && |states| == |order|
      requires forall s :: s in groups <==> s in order
      requires AnsweredUpTo(order, groups, states, whole, |order|)
      requires forall i :: 0 <= i < count ==> Placed(groups, i)
      ensures results == whole
    {
      var filled: seq<Option<Claim>> := seq(count, _ => None);
      for g := 0 to |order|
        invariant RightSoFar(filled, whole)
        invariant forall k :: 0 <= k < g ==> FilledFor(filled, groups[order[k]])
      {
        filled := ScatterOne(filled, groups[order[g]], states[g], whole);
      }
      forall i | 0 <= i < count
        ensures filled[i] == Some(whole[i])
      {
        assert Placed(groups, i);
        var s: nat, m: Member :| s in groups && m in groups[s] && m.index == i;
        var j :| 0 <= j < |groups[s]| && groups[s][j] == m;
        var k :| 0 <= k < |order| && order[k] == s;
        assert FilledFor(filled, groups[order[k]]);
      }
      results := seq(count, i requires 0 <= i < |filled| && filled[i].Some? => filled[i].value);
    }

    method ScatterOne(filled: seq<Option<Claim>>, members: seq<Member>, states: seq<Claim>, ghost whole: seq<Claim>)
      returns (after: seq<Option<Claim>>)
      requires RightSoFar(filled, whole) && Answers(members, states, whole)
      ensures RightSoFar(after, whole) && FilledFor(after, members)
      ensures forall i :: 0 <= i < |filled| && filled[i].Some? ==> after[i].Some?
    {
      after := filled;
      for k := 0 to |members|
        invariant RightSoFar(after, whole)
        invariant FilledFor(after, members[..k])
        invariant forall i :: 0 <= i < |filled| && filled[i].Some? ==> after[i].Some?
      {
        after := after[members[k].index := Some(states[k])];
      }
      assert members[..|members|] == members;
    }
  }

  ghost predicate Placed(groups: map<nat, seq<Member>>, i: nat) {
    exists s: nat, m: Member {:trigger m in groups[s]} :: s in groups && m in groups[s] && m.index == i
  }

  ghost predicate AnsweredUpTo(
    order: seq<nat>, groups: map<nat, seq<Member>>, states: seq<seq<Claim>>, whole: seq<Claim>, g: nat)
  {
    && |states| == g <= |order|
    && forall k :: 0 <= k < g ==> order[k] in groups && Answers(groups[order[k]], states[k], whole)
  }

  lemma {:induction false} EachIsPlaced(items: seq<Item>, shardOf: Digest -> nat, groups: map<nat, seq<Member>>)
    requires forall s :: s in groups ==> groups[s] == Members(items, shardOf, s)
    requires forall i :: 0 <= i < |items| ==> shardOf(items[i].field) in groups
    ensures forall i :: 0 <= i < |items| ==> Placed(groups, i)
  {
    forall i | 0 <= i < |items|
      ensures Placed(groups, i)
    {
      MembersIndex(items, shardOf, shardOf(items[i].field));
      assert Member(i, items[i]) in groups[shardOf(items[i].field)];
    }
  }

  lemma {:induction false} AgreeEverywhere(v: View, w: View, shardOf: Digest -> nat)
    requires forall s :: AgreeOn(v, w, shardOf, s)
    ensures v == w
  {
    forall f
      ensures (f in v <==> f in w) && (f in v ==> v[f] == w[f])
    {
      assert AgreeOn(v, w, shardOf, shardOf(f));
    }
  }

  /** The first `g` buckets of `order` are as `whole` has them, the others as they were. */
  ghost predicate Progress(
    whole: View, start: View, here: View, now: int, shardOf: Digest -> nat, order: seq<nat>, g: nat)
  {
    && g <= |order|
    && (forall k :: 0 <= k < g ==> AgreeOn(whole, Live(here, now), shardOf, order[k]))
    && (forall s: nat :: s !in order[..g] ==> AgreeOn(here, start, shardOf, s))
  }

  lemma {:induction false} ProgressFrame(
    whole: View, start: View, here: View, now: int, shardOf: Digest -> nat, order: seq<nat>, g: nat)
    requires Progress(whole, start, here, now, shardOf, order, g) && g < |order|
    requires forall i, j :: 0 <= i < j < |order| ==> order[i] != order[j]
    ensures AgreeOn(here, start, shardOf, order[g])
    ensures AgreeOn(Live(start, now), Live(here, now), shardOf, order[g])
  {
    assert order[g] !in order[..g];
  }

  lemma {:induction false} ProgressStep(
    whole: View, start: View, before: View, after: View, now: int, shardOf: Digest -> nat, order: seq<nat>, g: nat)
    requires Progress(whole, start, before, now, shardOf, order, g) && g < |order|
    requires forall i, j :: 0 <= i < j < |order| ==> order[i] != order[j]
    requires AgreeOn(whole, Live(after, now), shardOf, order[g])
    requires forall t :: t != order[g] ==> AgreeOn(after, before, shardOf, t)
    ensures Progress(whole, start, after, now, shardOf, order, g + 1)
  {
    AgreeCarriesOver(whole, before, after, now, shardOf, order[g]);
    forall s: nat | s !in order[..g + 1]
      ensures AgreeOn(after, start, shardOf, s)
    {
      assert s != order[..g + 1][g];
      assert s !in order[..g] by {
        assert forall k :: 0 <= k < g ==> order[..g + 1][k] == order[..g][k];
      }
      assert AgreeOn(after, before, shardOf, s) && AgreeOn(before, start, shardOf, s);
    }
  }

  lemma {:induction false} AllDone(
    items: seq<Item>, start: View, whole: View, here: View, now: int, expiry: int, shardOf: Digest -> nat,
    order: seq<nat>)
    requires whole == ClaimSeq(Live(start, now), items, expiry).0
    requires Progress(whole, start, here, now, shardOf, order, |order|)
    requires forall i :: 0 <= i < |items| ==> shardOf(items[i].field) in order
    ensures Live(here, now) == whole
  {
    ProgressDone(items, start, here, now, expiry, shardOf, order);
  }

  lemma {:induction false} ProgressDone(
    items: seq<Item>, start: View, here: View, now: int, expiry: int, shardOf: Digest -> nat, order: seq<nat>)
    requires Progress(ClaimSeq(Live(start, now), items, expiry).0, start, here, now, shardOf, order, |order|)
    requires forall i :: 0 <= i < |items| ==> shardOf(items[i].field) in order
    ensures Live(here, now) == ClaimSeq(Live(start, now), items, expiry).0
  {
    var whole := ClaimSeq(Live(start, now), items, expiry);
    forall s
      ensures AgreeOn(whole.0, Live(here, now), shardOf, s)
    {
      if s in order {
        var k :| 0 <= k < |order| && order[k] == s;
      } else {
        assert order[..|order|] == order && AgreeOn(here, start, shardOf, s);
        NoMembers(items, shardOf, s);
        BucketLocality(Live(start, now), Live(here, now), items, shardOf, s, expiry);
      }
    }
    AgreeEverywhere(whole.0, Live(here, now), shardOf);
  }

  /** A call on bucket `s` keeps what other buckets' live views already agree with. */
  lemma {:induction false} AgreeCarriesOver(
    whole: View, before: View, after: View, now: int, shardOf: Digest -> nat, s: nat)
    requires forall t :: t != s ==> AgreeOn(after, before, shardOf, t)
    ensures forall t :: t != s && AgreeOn(whole, Live(before, now), shardOf, t) ==>
              AgreeOn(whole, Live(after, now), shardOf, t)
  {
    forall t | t != s && AgreeOn(whole, Live(before, now), shardOf, t)
      ensures AgreeOn(whole, Live(after, now), shardOf, t)
    {
      assert AgreeOn(after, before, shardOf, t);
    }
  }
}

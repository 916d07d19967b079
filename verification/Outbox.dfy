/**
 The Gateway outbox (api/gateway/outbox.py): envelopes stored in Redis beside a pending set ordered
 by age, removed when Kafka acknowledged them, and published again by a worker until it has.
 */
module Outbox {
  import opened Prelude

  type Id = nat

  /** `wellFormed`: parses as JSON and names a customer. */
  datatype Envelope = Envelope(content: nat, wellFormed: bool)

  datatype Entry = Entry(id: Id, envelope: Envelope)

  datatype State = State(events: map<Id, Envelope>, pending: map<Id, int>, dead: seq<Entry>)

  function Stored(s: State, id: Id, e: Envelope, now: int): State {
    s.(events := s.events[id := e], pending := s.pending[id := now])
  }

  function Removed(s: State, id: Id): State {
    s.(events := s.events - {id}, pending := s.pending - {id})
  }

  /** The order of a sorted set: by score, then by member. */
  predicate Before(pending: map<Id, int>, i: Id, j: Id)
    requires i in pending && j in pending
  {
    pending[i] < pending[j] || (pending[i] == pending[j] && i <= j)
  }

  predicate IsOldest(pending: map<Id, int>, id: Id) {
    id in pending && forall j :: j in pending ==> Before(pending, id, j)
  }

  /** How a publication ends: acknowledged, KafkaUnavailableError, or CustodyOverloadedError. */
  datatype Publication = Acked | Unavailable | Overloaded

  /** An overload is caught nowhere: it is raised out of publish_envelope and of flush_once. */
  datatype Raised = Overload

  /** What a publication that is not acknowledged makes of its caller. */
  function NotPublished(p: Publication): Result<bool, Raised> {
    if p == Overloaded then Err(Overload) else Ok(false)
  }

  /** One flush of `id`, the oldest. Ok(true): go on. */
  function FlushSpec(s: State, id: Id, p: Publication): (State, Result<bool, Raised>) {
    if id !in s.events then (s.(pending := s.pending - {id}), Ok(true))
    else if !s.events[id].wellFormed then
      (Removed(s, id).(dead := s.dead + [Entry(id, s.events[id])]), Ok(true))
    else if p == Acked then (Removed(s, id), Ok(true))
    else (s, NotPublished(p))
  }

  /** What a flush of `id` has the broker acknowledge. */
  function SentBy(events: map<Id, Envelope>, id: Id, p: Publication): seq<Entry> {
    if id in events && events[id].wellFormed && p == Acked then [Entry(id, events[id])] else []
  }

  /** What a flush of `id` does: forgotten when it is not stored, buried when malformed, else sent or kept. */
  ghost predicate Handled(
    s: State, sent: seq<Entry>, id: Id, p: Publication, s': State, sent': seq<Entry>, out: Result<bool, Raised>)
  {
    && (forall j :: j != id ==> (j in s'.events <==> j in s.events) && (j in s'.pending <==> j in s.pending))
    && (id in s.pending && id in s'.pending ==> s'.pending[id] == s.pending[id])
    && (id in s'.pending <==> id in s.pending && id in s'.events)
    && (id in s'.events <==> id in s.events && s.events[id].wellFormed && p != Acked)
    && (|s'.dead| > |s.dead| <==> id in s.events && !s.events[id].wellFormed)
    && (|sent'| > |sent| <==> id in s.events && s.events[id].wellFormed && p == Acked)
    && (out == Ok(false) <==> id in s'.events && p == Unavailable)
    && (out == Err(Overload) <==> id in s'.events && p == Overloaded)
  }

  lemma {:induction false} FlushHandles(s: State, sent: seq<Entry>, id: Id, p: Publication)
    requires id in s.pending
    ensures
      var (s', out) := FlushSpec(s, id, p);
      Handled(s, sent, id, p, s', sent + SentBy(s.events, id, p), out)
  {
  }

  class GatewayOutbox {
    var events: map<Id, Envelope>
    var pending: map<Id, int>
    var dead: seq<Entry>
    var sent: seq<Entry>     // the broker: what was acknowledged

    ghost function Contents(): State
      reads this
    {
      State(events, pending, dead)
    }

    constructor ()
      ensures Contents() == State(map[], map[], []) && sent == []
    {
      events, pending, dead, sent := map[], map[], [], [];
    }

    method Store(id: Id, e: Envelope, now: int)
      modifies this`events, this`pending
      ensures Contents() == Stored(old(Contents()), id, e, now)
    {
      events, pending := events[id := e], pending[id := now];
    }

    method Remove(id: Id)
      modifies this`events, this`pending
      ensures Contents() == Removed(old(Contents()), id)
    {
      events, pending := events - {id}, pending - {id};
    }

    /** publish_envelope: stored first, so that it is held or acknowledged, whatever Kafka does. */
    method PublishEnvelope(id: Id, e: Envelope, now: int, p: Publication) returns (out: Result<bool, Raised>)
      modifies this
      ensures out == (if p == Acked then Ok(true) else NotPublished(p)) && dead == old(dead)
      ensures
        var stored := Stored(old(Contents()), id, e, now);
        Contents() == if p == Acked then Removed(stored, id) else stored
      ensures sent == if p == Acked then old(sent) + [Entry(id, e)] else old(sent)
      ensures p == Acked ==> events == old(events) - {id} && pending == old(pending) - {id}
      ensures p != Acked ==> events == old(events)[id := e] && pending == old(pending)[id := now]
      ensures out == (match p case Acked => Ok(true) case Unavailable => Ok(false) case Overloaded => Err(Overload))
      ensures Entry(id, e) in sent || (id in events && events[id] == e && id in pending)
    {
      Store(id, e, now);
      if p == Overloaded {
        return Err(Overload);
      } else if p == Unavailable {
        return Ok(false);
      }
      sent := sent + [Entry(id, e)];
      assert sent[|old(sent)|] == Entry(id, e);
      Remove(id);
      out := Ok(true);
    }

    /** ZRANGE 0 0. */
    method Oldest() returns (id: Id)
      requires pending != map[]
      ensures IsOldest(pending, id)
      ensures id in pending && forall j :: j in pending ==>
        pending[id] <= pending[j] && (pending[id] == pending[j] ==> id <= j)
    {
      var rest := pending.Keys;
      id :| id in pending;
      rest := rest - {id};
      while rest != {}
        invariant id in pending && rest <= pending.Keys
        invariant forall j :: j in pending && j !in rest ==> Before(pending, id, j)
        decreases rest
      {
        var j :| j in rest;
        if !Before(pending, id, j) {
          id := j;
        }
        rest := rest - {j};
      }
    }

    /** flush_once. */
    method FlushOnce(p: Publication) returns (out: Result<bool, Raised>, ghost flushed: Option<Id>)
      modifies this
      ensures old(pending) == map[] ==>
                out == Ok(false) && flushed == None && Contents() == old(Contents()) && sent == old(sent)
      ensures old(pending) != map[] ==>
                && flushed.Some? && IsOldest(old(pending), flushed.value)
                && (Contents(), out) == FlushSpec(old(Contents()), flushed.value, p)
                && sent == old(sent) + SentBy(old(events), flushed.value, p)
                && Handled(old(Contents()), old(sent), flushed.value, p, Contents(), sent, out)
    {
      if pending == map[] {
        return Ok(false), None;
      }
      var id := Oldest();
      flushed := Some(id);
      FlushHandles(Contents(), sent, id, p);
      if id !in events {
        pending := pending - {id};
        return Ok(true), flushed;
      }
      var e := events[id];
      if !e.wellFormed {
        dead := dead + [Entry(id, e)];
        Remove(id);
        return Ok(true), flushed;
      }
      if p == Overloaded {
        return Err(Overload), flushed;
      } else if p == Unavailable {
        return Ok(false), flushed;
      }
      sent := sent + [Entry(id, e)];
      Remove(id);
      out := Ok(true);
    }

    /** The oldest pending envelope is one that Kafka did not take. */
    ghost predicate Waits()
      reads this
    {
      exists id :: IsOldest(pending, id) && id in events && events[id].wellFormed
    }

    /**
     One pass of the worker, until a publication is not acknowledged or nothing is pending; `broker(k)`
     is how the k-th ends. An overload ends the pass by its exception, which skips the expiry of
     reservations (`raised`). No envelope is lost: it is still stored, acknowledged, or dead if malformed.
     */
    method WorkerPass(broker: nat -> Publication) returns (flushes: nat, refused: bool, raised: bool)
      modifies this
      ensures Accounted(old(events), events, old(sent), sent, old(dead), dead)
      ensures !refused ==> pending == map[] && !raised
      ensures refused ==> broker(flushes) != Acked && Waits() && (raised <==> broker(flushes) == Overloaded)
    {
      flushes, refused, raised := 0, false, false;
      var more := pending != map[];
      while more
        invariant Accounted(old(events), events, old(sent), sent, old(dead), dead)
        invariant more ==> !refused
        invariant !refused ==> !raised
        invariant !more && !refused ==> pending == map[]
        invariant refused ==> broker(flushes) != Acked && Waits() && (raised <==> broker(flushes) == Overloaded)
        decreases if more then |pending| + 1 else 0
      {
        ghost var before, sentBefore := Contents(), sent;
        var some := pending != map[];
        ghost var flushed;
        var out;
        out, flushed := FlushOnce(broker(flushes));
        more := out == Ok(true);
        if some {
          StillAccounted(old(events), old(sent), old(dead), before, sentBefore, flushed.value, broker(flushes), sent);
          if more {
            flushes := flushes + 1;
          } else {
            refused, raised := true, out.Err?;
            assert IsOldest(pending, flushed.value);
          }
        }
      }
    }
  }

  /** Every envelope stored before is stored, acknowledged since, or dead since; nothing else happened. */
  ghost predicate Accounted(events: map<Id, Envelope>, events': map<Id, Envelope>,
                            sent: seq<Entry>, sent': seq<Entry>, dead: seq<Entry>, dead': seq<Entry>)
  {
    && |sent| <= |sent'| && sent'[..|sent|] == sent && |dead| <= |dead'| && dead'[..|dead|] == dead
    && (forall id :: id in events' ==> id in events && events'[id] == events[id])
    && (forall id :: id in events && id !in events' ==>
          if events[id].wellFormed then Entry(id, events[id]) in sent'[|sent|..]
          else Entry(id, events[id]) in dead'[|dead|..])
    && (forall k :: |sent| <= k < |sent'| ==>
          && sent'[k].id in events && sent'[k].id !in events' && events[sent'[k].id] == sent'[k].envelope)
  }

  lemma {:induction false} StillAccounted(
    events: map<Id, Envelope>, sent: seq<Entry>, dead: seq<Entry>, before: State, sentBefore: seq<Entry>,
    id: Id, p: Publication, sent': seq<Entry>)
    requires Accounted(events, before.events, sent, sentBefore, dead, before.dead)
    requires sent' == sentBefore + SentBy(before.events, id, p)
    ensures
      var after := FlushSpec(before, id, p).0;
      Accounted(events, after.events, sent, sent', dead, after.dead)
  {
    var after := FlushSpec(before, id, p).0;
    if id in before.events && (!before.events[id].wellFormed || p == Acked) {
      var e := Entry(id, before.events[id]);
      if before.events[id].wellFormed {
        assert sent'[|sent|..] == sentBefore[|sent|..] + [e];
      } else {
        assert sent' == sentBefore && after.dead[|dead|..] == before.dead[|dead|..] + [e];
      }
    } else {
      assert sent' == sentBefore;
    }
  }
}

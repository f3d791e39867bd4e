/** realtime/events.py: `AsyncEventDispatcher`, its bounded queue and its consumer loop. */
module EventDispatcher {
  import opened Base
  import opened EventFanout

  /** The inner loop over the sinks, from the sink that is next. */
  function OfferAll(s: State, ends: nat -> Outcome): State
    requires s.consumer.Offering? ==> s.consumer.next < |s.offered| == |s.outcomes|
    decreases if s.consumer.Offering? then |s.offered| - s.consumer.next else 0
  {
    if !s.consumer.Offering? then s else OfferAll(Offer(s, ends(s.consumer.next)), ends)
  }

  /** Whatever the sinks raise, each of them from `next` on is offered the event, once, and the log
      names those that raised. */
  lemma {:induction false} OfferAllReachesEverySink(s: State, ends: nat -> Outcome)
    requires s.consumer.Offering? && s.consumer.next < |s.offered| == |s.outcomes|
    ensures var t := OfferAll(s, ends);
            && t == s.(consumer := Ready, offered := t.offered, outcomes := t.outcomes, logged := t.logged)
            && |t.offered| == |s.offered| == |t.outcomes|
            && (forall j :: 0 <= j < |s.offered| ==>
                  if j < s.consumer.next then t.offered[j] == s.offered[j] && t.outcomes[j] == s.outcomes[j]
                  else t.offered[j] == s.offered[j] + [s.consumer.notice] && t.outcomes[j] == s.outcomes[j] + [ends(j)])
            && (forall j :: s.consumer.next <= j < |s.offered| && ends(j).Raised? ==> (j, s.consumer.notice) in t.logged)
            && s.logged <= t.logged
            && (forall x <- t.logged[|s.logged|..] ::
                  s.consumer.next <= x.0 < |s.offered| && ends(x.0).Raised? && x.1 == s.consumer.notice)
    decreases |s.offered| - s.consumer.next
  {
    var m := Offer(s, ends(s.consumer.next));
    if m.consumer.Offering? {
      OfferAllReachesEverySink(m, ends);
    }
    var t := OfferAll(s, ends);
    if ends(s.consumer.next).Raised? {
      assert m.logged[|s.logged|] == (s.consumer.next, s.consumer.notice);
      assert t.logged[|s.logged|..] == [(s.consumer.next, s.consumer.notice)] + t.logged[|m.logged|..];
    }
  }

  /** The inner loop from sink `i` on. */
  function Sweep(v: State, event: Notice, i: nat, ends: nat -> Outcome): State
    requires |v.offered| == |v.outcomes|
  {
    if i < |v.offered| then OfferAll(v.(consumer := Offering(event, i)), ends) else v.(consumer := Ready)
  }

  lemma SweepTurn(v: State, event: Notice, i: nat, ends: nat -> Outcome)
    requires i < |v.offered| == |v.outcomes|
    ensures var u := v.(offered := v.offered[i := v.offered[i] + [event]],
                        outcomes := v.outcomes[i := v.outcomes[i] + [ends(i)]],
                        logged := if ends(i).Raised? then v.logged + [(i, event)] else v.logged);
            Sweep(v, event, i, ends) == Sweep(u, event, i + 1, ends)
  {
    var m := Offer(v.(consumer := Offering(event, i)), ends(i));
    assert OfferAll(v.(consumer := Offering(event, i)), ends) == OfferAll(m, ends);
    assert m.consumer.Ready? ==> OfferAll(m, ends) == m;
  }

  lemma SweepDone(v: State, event: Notice, i: nat, ends: nat -> Outcome)
    requires i == |v.offered| == |v.outcomes|
    ensures Sweep(v, event, i, ends) == v.(consumer := Ready)
  {
  }

  lemma TakeThenSweep(s: State, v: State, event: Notice, ends: nat -> Outcome)
    requires s.queue != [] && s.queue[0] == Carry(event) && s.consumer.Ready? && |s.offered| == |s.outcomes|
    requires v == s.(queue := s.queue[1..], taken := s.taken + [event])
    ensures Sweep(v, event, 0, ends) == OfferAll(Take(s), ends)
  {
  }

  class AsyncEventDispatcher {
    const capacity: nat
    var queue: seq<Slot>
    var closed: bool
    /** The `put` calls that wait for room. */
    var blocked: seq<Slot>
    /** Where the consumer task is. */
    var consumer: Consumer
    /** What each sink has been sent. */
    var sinks: seq<seq<Notice>>
    var outcomes: seq<seq<Outcome>>
    /** The exceptions of sinks, as written to the log. */
    var logged: seq<(nat, Notice)>
    ghost var taken: seq<Notice>
    ghost var enqueued: seq<Notice>
    ghost var published: seq<Notice>
    ghost var dropped: seq<Notice>

    ghost function View(): State
      reads this
    {
      State(capacity, queue, blocked, closed, consumer, sinks, outcomes, logged, taken, enqueued, published, dropped)
    }

    /** A started dispatcher. */
    constructor (sinkCount: nat, queueSize: nat)
      ensures Initial(View()) && capacity == queueSize && |sinks| == sinkCount
    {
      capacity, queue, closed, blocked, consumer := queueSize, [], false, [], Ready;
      sinks, outcomes, logged := seq(sinkCount, _ => []), seq(sinkCount, _ => []), [];
      taken, enqueued, published, dropped := [], [], [], [];
    }

    /** `Queue.put_nowait`; false when the queue is full. */
    method PutNowait(slot: Slot) returns (done: bool)
      modifies this`queue, this`enqueued
      ensures done == !Full(old(View()))
      ensures View() == if done then Put(old(View()), slot) else old(View())
    {
      hide Notices;
      if capacity > 0 && |queue| >= capacity {
        return false;
      }
      queue := queue + [slot];
      enqueued := enqueued + Notices([slot]);
      return true;
    }

    /** `publish`: a critical event waits for room, any other is dropped at a full queue. */
    method Publish(event: Notice)
      modifies this`queue, this`blocked, this`enqueued, this`published, this`dropped
      ensures View() == EventFanout.Publish(old(View()), event)
    {
      hide Notices, CRITICAL, Put;
      if closed {
        return;
      }
      published := published + [event];
      var done := PutNowait(Carry(event));
      if !done {
        if event.kind in CRITICAL {
          blocked := blocked + [Carry(event)];
        } else {
          dropped := dropped + [event];
        }
      }
    }

    /** A waiting `put` finds room. */
    method WakePut(i: nat)
      requires i < |blocked| && !Full(View())
      modifies this`queue, this`blocked, this`enqueued
      ensures View() == Unblock(old(View()), i)
    {
      hide Notices;
      var slot := blocked[i];
      blocked := blocked[..i] + blocked[i + 1..];
      queue := queue + [slot];
      enqueued := enqueued + Notices([slot]);
    }

    /** `sink.send(event)`, which may raise. */
    method Send(i: nat, event: Notice, end: Outcome) returns (r: Result<Notice>)
      requires i < |sinks| == |outcomes|
      modifies this`sinks, this`outcomes
      ensures sinks == old(sinks)[i := old(sinks)[i] + [event]]
      ensures outcomes == old(outcomes)[i := old(outcomes)[i] + [end]]
      ensures r.Err? <==> end.Raised?
    {
      sinks, outcomes := sinks[i := sinks[i] + [event]], outcomes[i := outcomes[i] + [end]];
      return if end.Raised? then Err(SinkFailed) else Ok(event);
    }

    /** The inner loop of `_run`: a sink that raises is logged and does not end the loop. */
    method SendToAll(event: Notice, ends: nat -> Outcome)
      requires |sinks| == |outcomes|
      modifies this`consumer, this`sinks, this`outcomes, this`logged
      ensures View() == Sweep(old(View()), event, 0, ends)
    {
      ghost var end := Sweep(View(), event, 0, ends);
      hide Sweep;
      for i := 0 to |sinks|
        invariant |sinks| == |outcomes| == |old(sinks)|
        invariant Sweep(View(), event, i, ends) == end
      {
        ghost var v := View();
        var sent := Send(i, event, ends(i));
        if sent.Err? {
          logged := logged + [(i, event)];
        }
        SweepTurn(v, event, i, ends);
      }
      SweepDone(View(), event, |sinks|, ends);
      consumer := Ready;
    }

    /** One turn of `_run`: take an element, and send an event to every sink. */
    method RunOnce(ends: nat -> Outcome)
      requires queue != [] && consumer.Ready? && |sinks| == |outcomes|
      modifies this`queue, this`consumer, this`sinks, this`outcomes, this`logged, this`taken
      ensures View() == OfferAll(Take(old(View())), ends)
    {
      ghost var before := View();
      var slot := queue[0];
      queue := queue[1..];
      if slot.End? {
        consumer := Stopped;
        return;
      }
      taken := taken + [slot.notice];
      ghost var v := View();
      SendToAll(slot.notice, ends);
      TakeThenSweep(before, v, slot.notice, ends);
    }

    /** `close` up to the put of the end marker. */
    method Close()
      modifies this`closed, this`queue, this`blocked, this`enqueued
      ensures View() == EventFanout.Close(old(View()))
    {
      hide Notices, Put;
      if closed {
        return;
      }
      closed := true;
      var done := PutNowait(End);
      if !done {
        blocked := blocked + [End];
      }
    }
  }
}

/** The events of a call that its sinks are waiting for are never dropped. */
module CriticalEvents {
  import opened Base
  import opened Models
  import opened Rows
  import opened CallSites
  import F = EventFanout

  /** The writes that commit, ask, hear an answer or end a call. */
  predicate Decisive(site: Site) {
    site.Commit? || site.AskInput? || site.InputReceived? || site.InputTimeout? || site.Cancel? || site.Finish?
    || site.DispatchFailed? || site.SipFailed? || site.WorkerFailed?
  }

  /** What the event of such a write is called. */
  function NameOf(site: Site): string
    requires Decisive(site)
  {
    match site
    case Commit(_, commitment) => if commitment.allowed then "call.commit_allowed" else "call.commit_denied"
    case AskInput(_) => "call.input_required"
    case InputReceived(_) => "call.input_received"
    case InputTimeout(_) => "call.input_timeout"
    case Cancel(_) => "call.cancelled"
    case Finish(_) => "call.completed"
    case DispatchFailed(_) => "call.failed"
    case SipFailed(_) => "call.failed"
    case WorkerFailed(_, _) => "call.failed"
  }

  /** The event an accepted write logs, as the repository publishes it. */
  function Published(before: Row, after: Row): F.Notice
    requires |after.events| > 0 && after.events[|after.events| - 1].kind.Named?
  {
    var e := after.events[|after.events| - 1];
    F.Notice(before.call.id, e.sequence, e.kind.name)
  }

  /** Each decisive write that is accepted is logged under its name, and an open dispatcher never drops
      that event, however full its queue is: it queues it or makes the publisher wait. */
  lemma DecisiveEventsAreNotDropped(backend: Backend, row: Row, site: Site, now: int, s: F.State)
    requires Decisive(site) && ApplySite(backend, row, site, now).Ok? && !s.closed
    ensures var after := ApplySite(backend, row, site, now).value;
            && |after.events| == |row.events| + 1
            && after.events[|row.events|].kind == Named(NameOf(site))
            && var e := Published(row, after);
               var t := F.Publish(s, e);
               t.dropped == s.dropped && (e in t.enqueued || F.Carry(e) in t.blocked)
  {
    var after := ApplySite(backend, row, site, now).value;
    var e := Published(row, after);
    assert e.kind == NameOf(site);
    hide ApplySite;
    F.NoticesOne(F.Carry(e));
    var t := F.Publish(s, e);
    assert t.enqueued == s.enqueued + [e] || t.blocked == s.blocked + [F.Carry(e)];
  }

  /** The worker's other writes are not decisive: their events may be dropped at a full queue. */
  lemma ProgressMayBeDropped(backend: Backend, row: Row, site: Site, now: int, s: F.State)
    requires site in {InboundConnect, Prewarm, Ring, Connect} || site.Dial? || site.Activate? || site.RecordDispatch?
             || site.Complete? || site.CompleteOnHangup?
    requires ApplySite(backend, row, site, now).Ok? && !s.closed && F.Full(s)
    ensures var after := ApplySite(backend, row, site, now).value;
            && |after.events| == |row.events| + 1 && after.events[|row.events|].kind.Named?
            && F.Publish(s, Published(row, after)).dropped == s.dropped + [Published(row, after)]
  {
    hide F.Full;
  }
}

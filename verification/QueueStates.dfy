/** What the operations in the queue will do to the stored row once they are performed. */
module QueueStates {
  import opened Base
  import opened Models
  import opened Rows
  import opened CallSites
  import opened WriteBehind

  /** The call sites of ActiveCallContext: only these are ever queued. */
  predicate Queueable(item: Item) {
    if item.required then
      item.op.Store? ==> item.op.site.Snapshot? || item.op.site.Commit? || item.op.site.Complete?
    else item.op.Store? && item.op.site.Note? && item.waiter.None?
  }

  /** The snapshot an entry carries, if any. */
  function StateOf(e: Entry): Option<CallState> {
    if e.Work? && e.item.op.Store? then
      match e.item.op.site
      case Snapshot(state, _, _, _) => Some(state)
      case Commit(state, _) => Some(state)
      case Complete(state, _) => Some(state)
      case _ => None
    else None
  }

  /** The stored state after an entry is performed successfully. */
  function Effect(e: Entry, state: CallState): CallState {
    if StateOf(e).Some? then StateOf(e).value
    else if e.Work? && e.item.op.Speak? && e.item.op.last.Some? then state.(lastRemote := e.item.op.last)
    else state
  }

  /** The stored state after the whole queue is performed successfully. */
  function Replay(queue: seq<Entry>, state: CallState): CallState {
    if queue == [] then state else Replay(queue[1..], Effect(queue[0], state))
  }

  predicate Accepting(e: Entry, status: Status)
    requires e.Work?
  {
    match e.item.op
    case Store(Snapshot(_, _, _, scope)) => status in scope.Statuses()
    case Store(Commit(_, _)) => status == Active || status == InputRequired
    case Store(Complete(_, _)) => status == Active || status == InputRequired
    case _ => true
  }

  function IsCompletion(e: Entry): bool {
    e.Work? && e.item.op.Store? && e.item.op.site.Complete?
  }

  /** What a performed operation does to state, status and outcome, in either repository. */
  lemma PerformEffect(backend: Backend, row: Row, item: Item, now: int)
    requires Queueable(item)
    requires Perform(backend, row, item.op, now).Ok?
    ensures var after := Perform(backend, row, item.op, now).value.call;
            var e := Work(item);
            && Accepting(e, row.call.status)
            && after.state == Effect(e, row.call.state)
            && after.status == (if IsCompletion(e) then Completing else row.call.status)
            && after.outcome == (if IsCompletion(e) then Some(item.op.site.outcome) else row.call.outcome)
  {
    if item.op.Store? {
      UpdateEffect(backend, row, UpdateOf(item.op.site), now);
    }
  }

  lemma {:induction false} ReplayPush(queue: seq<Entry>, e: Entry, state: CallState)
    ensures Replay(queue + [e], state) == Effect(e, Replay(queue, state))
    decreases |queue|
  {
    if queue != [] {
      assert (queue + [e])[1..] == queue[1..] + [e];
      ReplayPush(queue[1..], e, Effect(queue[0], state));
    } else {
      assert (queue + [e])[1..] == [];
      assert Replay([], Effect(e, state)) == Effect(e, state);
    }
  }

  predicate NoStates(queue: seq<Entry>) {
    forall e <- queue :: StateOf(e).None?
  }

  /** The snapshot at the head of the queue when a writer step leaves the row's state changed. */
  lemma WriterRow(backend: Backend, s: System, fate: Fate, now: int)
    requires s.ctx.queue != [] && !s.ctx.stopped
    requires s.ctx.queue[0].Work? && Queueable(s.ctx.queue[0].item)
    ensures var head := s.ctx.queue[0];
            var t := WriterStep(backend, s, fate, now);
            var skip := head.item.required && s.ctx.failed;
            && (t.row == s.row
                || (!skip && Accepting(head, s.row.call.status)
                    && t.row.call.state == Effect(head, s.row.call.state)
                    && t.row.call.status == (if IsCompletion(head) then Completing else s.row.call.status)
                    && t.row.call.outcome ==
                       (if IsCompletion(head) then Some(head.item.op.site.outcome) else s.row.call.outcome)))
            && (!t.ctx.failed && head.item.required ==>
                  && Accepting(head, s.row.call.status)
                  && t.row.call.state == Effect(head, s.row.call.state)
                  && t.row.call.status == (if IsCompletion(head) then Completing else s.row.call.status)
                  && t.row.call.outcome ==
                     (if IsCompletion(head) then Some(head.item.op.site.outcome) else s.row.call.outcome))
            && (!head.item.required ==>
                  t.row.call.state == s.row.call.state && t.row.call.status == s.row.call.status
                  && t.row.call.outcome == s.row.call.outcome)
  {
    hide ApplySite, AppendTurn;
    var item := s.ctx.queue[0].item;
    if Perform(backend, s.row, item.op, now).Ok? {
      hide Perform;
      PerformEffect(backend, s.row, item, now);
    }
  }
}

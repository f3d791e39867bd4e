/** Every place that calls `update_call`, with the arguments it passes: calls/service.py,
    realtime/active_calls.py and worker/agent.py. None of them consults the status table. */
module CallSites {
  import opened Base
  import opened Models
  import opened Rows
  import opened CallStatusGraph

  /** The `expected_statuses` given to `persist_state` and `persist_state_durable`. */
  datatype Scope = ActiveOnly | InCall | ConnectedOnly | UntilCompletion {
    function Statuses(): set<Status> {
      match this
      case ActiveOnly => {Active}
      case InCall => {Active, InputRequired}
      case ConnectedOnly => {Connected}
      case UntilCompletion => {Active, InputRequired, Completing}
    }
  }

  datatype Site =
    // calls/service.py
    | Move(read: Status, target: Status, phase: Option<Phase>, name: string)
    | InboundConnect
    | RecordDispatch(state: CallState)
    | DispatchFailed(message: string)
    | Cancel(read: Status)
    | AskInput(state: CallState)
    | InputReceived(state: CallState)
    | InputTimeout(state: CallState)
    // realtime/active_calls.py
    | Snapshot(state: CallState, name: string, payload: Payload, scope: Scope)
    | Commit(state: CallState, commitment: Commitment)
    | Complete(state: CallState, outcome: Outcome)
    | Note(name: string, payload: Payload)
    // worker/agent.py
    | Prewarm
    | Dial(state: CallState)
    | Ring
    | SipFailed(error: CallError)
    | Connect
    | Activate(state: CallState)
    | WorkerFailed(read: Status, error: CallError)
    | CompleteOnHangup(outcome: Outcome)
    | Finish(outcome: Outcome)

  function StatusWrite(status: Status, name: string, expected: set<Status>): Update {
    Update(Some(status), None, None, None, None, Named(name), NO_PAYLOAD, Some(expected))
  }

  function UpdateOf(site: Site): Update {
    match site
    case Move(read, target, phase, name) => StatusWrite(target, name, {read}).(phase := phase)
    case InboundConnect => StatusWrite(Connected, "call.connected", {Created}).(phase := Some(Opening))
    case RecordDispatch(state) =>
      Update(None, None, Some(state), None, None, Named("call.dispatched"), NO_PAYLOAD, Some({Queued}))
    case DispatchFailed(message) =>
      StatusWrite(Failed, "call.failed", {Queued}).(error := Some(CallError("dispatch_failed", message, true)))
    case Cancel(read) => StatusWrite(Cancelled, "call.cancelled", {read})
    case AskInput(state) => StatusWrite(InputRequired, "call.input_required", {Active}).(state := Some(state))
    case InputReceived(state) => StatusWrite(Active, "call.input_received", {InputRequired}).(state := Some(state))
    case InputTimeout(state) => StatusWrite(Active, "call.input_timeout", {InputRequired}).(state := Some(state))
    case Snapshot(state, name, payload, scope) =>
      Update(None, None, Some(state), None, None, Named(name), payload, Some(scope.Statuses()))
    case Commit(state, commitment) =>
      Update(None, None, Some(state), None, None,
             Named(if commitment.allowed then "call.commit_allowed" else "call.commit_denied"),
             NO_PAYLOAD, Some({Active, InputRequired}))
    case Complete(state, outcome) =>
      StatusWrite(Completing, "call.completing", {Active, InputRequired}).(
        phase := Some(Closing), state := Some(state), outcome := Some(outcome))
    case Note(name, payload) => Update(None, None, None, None, None, Named(name), payload, None)
    case Prewarm => StatusWrite(Prewarming, "call.prewarming", {Queued})
    case Dial(state) => StatusWrite(Dialing, "call.dialing", {Prewarming}).(state := Some(state))
    case Ring => StatusWrite(Ringing, "call.ringing", {Dialing})
    case SipFailed(error) => StatusWrite(Failed, "call.failed", {Ringing}).(error := Some(error))
    case Connect => StatusWrite(Connected, "call.connected", {Ringing}).(phase := Some(Opening))
    case Activate(state) =>
      StatusWrite(Active, "call.active", {Connected}).(phase := Some(Opening), state := Some(state))
    case WorkerFailed(read, error) => StatusWrite(Failed, "call.failed", {read}).(error := Some(error))
    case CompleteOnHangup(outcome) =>
      StatusWrite(Completing, "call.completing", {Active, InputRequired}).(outcome := Some(outcome))
    case Finish(outcome) => StatusWrite(Completed, "call.completed", {Completing}).(outcome := Some(outcome))
  }

  /** What the code checks on the status it read before it writes. */
  predicate Guarded(site: Site) {
    match site
    case Move(read, target, _, _) => CanTransition(read, target)
    case Cancel(read) => !read.Terminal()
    case WorkerFailed(read, _) => !read.Terminal()
    case _ => true
  }

  function ApplySite(backend: Backend, row: Row, site: Site, now: int): Result<Row> {
    UpdateRow(backend, row, UpdateOf(site), now)
  }

  /** No write consults the table, and yet each one that succeeds follows an edge of it. The only
      writes that can leave a status in place are those without a status and `transition` to the
      status just read. */
  lemma EveryWriteIsAnEdge(backend: Backend, row: Row, site: Site, now: int)
    requires Guarded(site)
    requires ApplySite(backend, row, site, now).Ok?
    ensures var next := ApplySite(backend, row, site, now).value.call.status;
            && (UpdateOf(site).status.None? ==> next == row.call.status)
            && (UpdateOf(site).status.Some? ==> next == UpdateOf(site).status.value)
            && (UpdateOf(site).status.Some? && (site.Move? ==> site.read != site.target)
                ==> next in Transitions(row.call.status))
            && CanTransition(row.call.status, next)
  {
    UpdateEffect(backend, row, UpdateOf(site), now);
  }
}

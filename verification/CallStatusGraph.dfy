/** calls/state.py: the table of allowed status changes. */
module CallStatusGraph {
  import opened Models

  function Transitions(status: Status): set<Status> {
    match status
    case Created => {Validating, Connected, Cancelled, Failed}
    case Validating => {Queued, Cancelled, Failed}
    case Queued => {Prewarming, Cancelled, Failed}
    case Prewarming => {Dialing, Cancelled, Failed}
    case Dialing => {Ringing, Connected, Cancelled, Failed}
    case Ringing => {Connected, Cancelled, Failed}
    case Connected => {Active, Cancelled, Failed}
    case Active => {InputRequired, Completing, Cancelled, Failed}
    case InputRequired => {Active, Completing, Cancelled, Failed}
    case Completing => {Completed, Cancelled, Failed}
    case Completed => {}
    case Failed => {}
    case Cancelled => {}
  }

  predicate CanTransition(current: Status, target: Status) {
    current == target || target in Transitions(current)
  }

  /** A call climbs one ladder, with a short cut for inbound calls and one for calls that are answered
      without ringing; a question takes it aside from ACTIVE and back or on; and until it has ended it
      can fail or be cancelled. There is no other edge. */
  lemma EdgesAre(a: Status, b: Status)
    ensures b in Transitions(a) <==>
            || (a !in {Completed, Failed, Cancelled} && b in {Failed, Cancelled})
            || (a, b) in {(Created, Validating), (Validating, Queued), (Queued, Prewarming), (Prewarming, Dialing),
                          (Dialing, Ringing), (Ringing, Connected), (Connected, Active), (Active, Completing),
                          (Completing, Completed)}
            || (a, b) in {(Created, Connected), (Dialing, Connected),
                          (Active, InputRequired), (InputRequired, Active), (InputRequired, Completing)}
  {
  }
}

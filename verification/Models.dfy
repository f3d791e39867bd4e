/** The records of calls/models.py. Times are integers (an instant on some clock). */
module Models {
  import opened Base

  datatype Status =
    | Created | Validating | Queued | Prewarming | Dialing | Ringing | Connected
    | Active | InputRequired | Completing | Completed | Failed | Cancelled
  {
    predicate Terminal() {
      Completed? || Failed? || Cancelled?
    }
  }

  datatype Direction = Outbound | Inbound

  datatype Phase = Opening | Identifying | Requesting | Negotiating | Confirming | Closing

  type Weekday = n: nat | n < 7

  /** An instant as the policy sees it: the weekday (Monday is 0) and the time of day. */
  datatype Moment = Moment(weekday: Weekday, micros: nat)

  /** A JSON value. A string carries what `datetime.fromisoformat` makes of it; every other value
      is known by its canonical text and its truthiness. */
  datatype Json =
    | Str(s: string, moment: Option<Moment>)
    | Raw(text: string, truthy: bool)

  type Fields = map<string, Json>

  /** A constraint text together with what the policy's regular expressions find in it. */
  datatype Constraint = Constraint(
    text: string,
    earliest: Option<(nat, nat)>,
    latest: Option<(nat, nat)>,
    closedDays: set<Weekday>)

  datatype Permissions = Permissions(mayCommit: bool, mayAcceptCosts: bool, mayTransfer: bool)

  datatype Candidate = Candidate(id: string, kind: string, value: Fields, allowed: bool, reason: Option<string>)

  /** The identifier is a digest of call, action and payload; it is represented by what it digests. */
  datatype CommitId = CommitId(action: string, payload: Fields)

  datatype Commitment = Commitment(
    id: CommitId,
    action: string,
    payload: Fields,
    allowed: bool,
    reason: Option<string>,
    confirmed: bool)

  datatype VoiceSession = VoiceSession(
    settings: Json,
    amd: Option<Json>,
    transfer: Option<Json>,
    usage: Json,
    report: Option<Json>)

  datatype CallState = CallState(
    objective: string,
    constraints: seq<Constraint>,
    permissions: Permissions,
    facts: Fields,
    candidates: seq<Candidate>,
    commitments: seq<Commitment>,
    pendingInput: Option<string>,
    roomName: Option<string>,
    dispatchId: Option<string>,
    sipIdentity: Option<string>,
    lastRemote: Option<string>,
    voice: VoiceSession)

  datatype Outcome = Outcome(
    success: bool,
    reason: string,
    summary: string,
    facts: Fields,
    commitments: seq<Commitment>,
    notes: seq<string>)

  datatype CallError = CallError(code: string, message: string, retryable: bool)

  datatype CallRecord = CallRecord(
    id: string,
    principal: string,
    direction: Direction,
    clientRequestId: Option<string>,
    status: Status,
    phase: Option<Phase>,
    targetNumber: string,
    state: CallState,
    outcome: Option<Outcome>,
    error: Option<CallError>,
    createdAt: int,
    updatedAt: int,
    connectedAt: Option<int>,
    endedAt: Option<int>)
  {
    function StartedAt(): int {
      if connectedAt.Some? then connectedAt.value else createdAt
    }
  }

  datatype Role = User | Assistant

  /** `TranscriptFinal(role)` is the event type text `call.<role>_transcript_final`; `Named` is
      every other event type. */
  datatype EventType = TranscriptFinal(role: Role) | Named(name: string)

  /** An event payload: the two keys the history back-fill reads, and all the others. */
  datatype Payload = Payload(transcript: Option<string>, interrupted: Option<bool>, rest: Fields)

  const NO_PAYLOAD := Payload(None, None, map[])

  datatype Event = Event(sequence: nat, kind: EventType, payload: Payload, createdAt: int)

  datatype Turn = Turn(sequence: nat, role: Role, text: string, interrupted: bool, createdAt: int)

  datatype InputStatus = Pending | Resolved | Expired

  datatype InputRequest = InputRequest(
    id: string,
    callId: string,
    status: InputStatus,
    question: string,
    options: seq<string>,
    response: Option<Fields>,
    expiresAt: int,
    resolvedAt: Option<int>)
}

/** The life of one call under every interleaving of the writes of CallSites and of transcript
    turns: whatever succeeds or fails, and in whatever order. */
module Lifecycle {
  import opened Base
  import opened Models
  import opened Rows
  import opened CallStatusGraph
  import opened CallSites

  datatype RowAction =
    | Write(site: Site, now: int)
    | Speak(role: Role, text: string, interrupted: bool, last: Option<string>, now: int)

  predicate ActionOk(a: RowAction) {
    a.Write? ==> Guarded(a.site)
  }

  /** One repository call; one that raises leaves the row alone. */
  function Act(backend: Backend, row: Row, a: RowAction): Row {
    var r :=
      match a
      case Write(site, now) => ApplySite(backend, row, site, now)
      case Speak(role, text, interrupted, last, now) => AppendTurn(backend, row, role, text, interrupted, last, now);
    if r.Ok? then r.value else row
  }

  /** The rows after each action of a run, the initial one first. */
  function Trace(backend: Backend, row: Row, run: seq<RowAction>): (t: seq<Row>)
    ensures |t| == |run| + 1 && t[0] == row
    decreases |run|
  {
    if run == [] then [row] else [row] + Trace(backend, Act(backend, row, run[0]), run[1..])
  }

  /** The number of status changes along a run. */
  function Changes(t: seq<Row>): nat {
    if |t| < 2 then 0 else (if t[0].call.status != t[1].call.status then 1 else 0) + Changes(t[1..])
  }

  /** How often a run enters INPUT_REQUIRED. */
  function Questions(t: seq<Row>): nat {
    if |t| < 2 then 0
    else (if !t[0].call.status.InputRequired? && t[1].call.status.InputRequired? then 1 else 0) + Questions(t[1..])
  }

  lemma TraceUnfolds(backend: Backend, row: Row, run: seq<RowAction>)
    requires run != []
    ensures var t := Trace(backend, row, run);
            var rest := Trace(backend, Act(backend, row, run[0]), run[1..]);
            t[1..] == rest && t[1] == rest[0] && t[|run|] == rest[|run| - 1]
            && Changes(t) == (if row.call.status != rest[0].call.status then 1 else 0) + Changes(rest)
            && Questions(t) ==
               (if !row.call.status.InputRequired? && rest[0].call.status.InputRequired? then 1 else 0) + Questions(rest)
  {
  }

  lemma StepFollowsTable(backend: Backend, row: Row, a: RowAction)
    requires ActionOk(a)
    ensures CanTransition(row.call.status, Act(backend, row, a).call.status)
  {
    if a.Write? && ApplySite(backend, row, a.site, a.now).Ok? {
      EveryWriteIsAnEdge(backend, row, a.site, a.now);
    }
  }

  /** Each status is followed by one the table allows. */
  ghost predicate IsPath(t: seq<Row>) {
    forall i, j | 0 <= i < |t| && j == i + 1 < |t| :: CanTransition(t[i].call.status, t[j].call.status)
  }

  lemma PathCons(row: Row, rest: seq<Row>)
    requires rest != [] && IsPath(rest) && CanTransition(row.call.status, rest[0].call.status)
    ensures IsPath([row] + rest)
  {
    hide CanTransition;
    var t := [row] + rest;
    forall i, j | 0 <= i < |t| && j == i + 1 < |t| ensures CanTransition(t[i].call.status, t[j].call.status) {
      assert t[j] == rest[i];
      assert i > 0 ==> t[i] == rest[i - 1];
    }
  }

  /** Every run is a path of the table. */
  lemma {:induction false} RunIsPath(backend: Backend, row: Row, run: seq<RowAction>)
    requires forall a <- run :: ActionOk(a)
    ensures IsPath(Trace(backend, row, run))
    decreases |run|
  {
    if run != [] {
      var next := Act(backend, row, run[0]);
      StepFollowsTable(backend, row, run[0]);
      RunIsPath(backend, next, run[1..]);
      hide Act, CanTransition, IsPath, ActionOk;
      PathCons(row, Trace(backend, next, run[1..]));
    }
  }

  /** A terminal status is never left. */
  lemma {:induction false} TerminalAbsorbs(backend: Backend, row: Row, run: seq<RowAction>)
    requires forall a <- run :: ActionOk(a)
    requires row.call.status.Terminal()
    ensures forall r <- Trace(backend, row, run) :: r.call.status == row.call.status
    decreases |run|
  {
    if run != [] {
      StepFollowsTable(backend, row, run[0]);
      TerminalAbsorbs(backend, Act(backend, row, run[0]), run[1..]);
    }
  }

  // ---- Times ----

  /** A call that was ever connected has a connection time. */
  predicate Dated(call: CallRecord) {
    call.status in {Connected, Active, InputRequired, Completing, Completed} ==> call.connectedAt.Some?
  }

  lemma ActKeepsDated(backend: Backend, row: Row, a: RowAction)
    requires ActionOk(a) && Dated(row.call)
    ensures var before, after := row.call, Act(backend, row, a).call;
            && Dated(after) && after.id == before.id && after.createdAt == before.createdAt
            && (before.connectedAt.Some? ==> after.connectedAt == before.connectedAt)
  {
    StepFollowsTable(backend, row, a);
    hide UpdateOf;
  }

  /** In either repository and over every run: a call that is or was connected has a connection time,
      written once; so the key it is listed under changes at most when it is first connected. */
  lemma {:induction false} ConnectionTimeIsFixed(backend: Backend, row: Row, run: seq<RowAction>)
    requires (forall a <- run :: ActionOk(a)) && Dated(row.call)
    ensures forall r <- Trace(backend, row, run) ::
              && Dated(r.call) && r.call.id == row.call.id && r.call.createdAt == row.call.createdAt
              && (row.call.connectedAt.Some? ==>
                    r.call.connectedAt == row.call.connectedAt && r.call.StartedAt() == row.call.StartedAt())
    decreases |run|
  {
    if run != [] {
      assert ActionOk(run[0]);
      ActKeepsDated(backend, row, run[0]);
      hide Act, ActionOk, Dated;
      ConnectionTimeIsFixed(backend, Act(backend, row, run[0]), run[1..]);
    }
  }

  /** The longest way from a status to a terminal one that asks no further question. */
  function Remaining(status: Status): nat {
    match status
    case Created => 9
    case Validating => 8
    case Queued => 7
    case Prewarming => 6
    case Dialing => 5
    case Ringing => 4
    case Connected => 3
    case Active => 2
    case InputRequired => 3
    case Completing => 1
    case Completed => 0
    case Failed => 0
    case Cancelled => 0
  }

  /** What one step costs: every change is paid for by the way that remains, or by a question. */
  lemma StepCost(a: Status, b: Status)
    requires CanTransition(a, b)
    ensures (if a != b then 1 else 0) + Remaining(b)
            <= Remaining(a) + (if !a.InputRequired? && b.InputRequired? then 2 else 0)
  {
  }

  lemma {:induction false} ChangesBounded(backend: Backend, row: Row, run: seq<RowAction>)
    requires forall a <- run :: ActionOk(a)
    ensures var t := Trace(backend, row, run);
            Changes(t) + Remaining(t[|run|].call.status) <= Remaining(row.call.status) + 2 * Questions(t)
    decreases |run|
  {
    var t := Trace(backend, row, run);
    if run != [] {
      var next := Act(backend, row, run[0]);
      StepFollowsTable(backend, row, run[0]);
      StepCost(row.call.status, next.call.status);
      ChangesBounded(backend, next, run[1..]);
      TraceUnfolds(backend, row, run);
    }
  }

  /** A call that is asked about k times changes its status at most 9 + 2k times. */
  lemma AtMostNinePlusTwoK(backend: Backend, row: Row, run: seq<RowAction>)
    requires forall a <- run :: ActionOk(a)
    requires row.call.status == Created
    ensures var t := Trace(backend, row, run); Changes(t) <= 9 + 2 * Questions(t)
  {
    ChangesBounded(backend, row, run);
  }

  // ---- The bound is attained ----

  /** From ACTIVE: k questions, each answered, and then the end. */
  function Conversation(k: nat, state: CallState, outcome: Outcome, now: int): seq<RowAction> {
    if k == 0 then [Write(CompleteOnHangup(outcome), now), Write(Finish(outcome), now)]
    else [Write(AskInput(state), now), Write(InputReceived(state), now)] + Conversation(k - 1, state, outcome, now)
  }

  /** From PREWARMING: dialling, answering, talking. */
  function Answered(k: nat, state: CallState, outcome: Outcome, now: int): seq<RowAction> {
    [Write(Connect, now)] + ([Write(Activate(state), now)] + Conversation(k, state, outcome, now))
  }

  function Connecting(k: nat, state: CallState, outcome: Outcome, now: int): seq<RowAction> {
    [Write(Dial(state), now)] + ([Write(Ring, now)] + Answered(k, state, outcome, now))
  }

  /** A whole outbound call. */
  function FullCall(k: nat, state: CallState, outcome: Outcome, now: int): seq<RowAction> {
    [Write(Move(Created, Validating, None, "call.validating"), now)]
    + ([Write(Move(Validating, Queued, None, "call.queued"), now)]
      + ([Write(Prewarm, now)] + Connecting(k, state, outcome, now)))
  }

  /** An accepted status write goes where it says. */
  lemma WriteMoves(backend: Backend, row: Row, site: Site, now: int)
    requires UpdateOf(site).status.Some? && UpdateOf(site).expected == Some({row.call.status})
    ensures Act(backend, row, Write(site, now)).call.status == UpdateOf(site).status.value
  {
    UpdateEffect(backend, row, UpdateOf(site), now);
  }

  /** Counting from the first action of a run on. */
  lemma CountFirst(backend: Backend, row: Row, a: RowAction, rest: seq<RowAction>)
    ensures var t, u := Trace(backend, row, [a] + rest), Trace(backend, Act(backend, row, a), rest);
            && Changes(t) == (if row.call.status != Act(backend, row, a).call.status then 1 else 0) + Changes(u)
            && Questions(t) ==
               (if !row.call.status.InputRequired? && Act(backend, row, a).call.status.InputRequired? then 1 else 0)
               + Questions(u)
  {
    TraceUnfolds(backend, row, [a] + rest);
    assert ([a] + rest)[1..] == rest;
  }

  lemma {:induction false} ConversationCounts(
    backend: Backend, row: Row, k: nat, state: CallState, outcome: Outcome, now: int)
    requires row.call.status.Active?
    ensures var t := Trace(backend, row, Conversation(k, state, outcome, now));
            Changes(t) == 2 + 2 * k && Questions(t) == k
    decreases k
  {
    hide Trace, Changes, Questions, UpdateRow;
    if k == 0 {
      var ending, end := Write(CompleteOnHangup(outcome), now), Write(Finish(outcome), now);
      var closing := Act(backend, row, ending);
      UpdateEffect(backend, row, UpdateOf(CompleteOnHangup(outcome)), now);
      WriteMoves(backend, closing, Finish(outcome), now);
      CountFirst(backend, row, ending, [end]);
      CountFirst(backend, closing, end, []);
      assert [end] + [] == [end] && [ending] + [end] == [ending, end];
      NothingCounts(backend, Act(backend, closing, end));
    } else {
      var ask, answer := Write(AskInput(state), now), Write(InputReceived(state), now);
      var rest := Conversation(k - 1, state, outcome, now);
      var asked := Act(backend, row, ask);
      WriteMoves(backend, row, AskInput(state), now);
      WriteMoves(backend, asked, InputReceived(state), now);
      CountFirst(backend, row, ask, [answer] + rest);
      CountFirst(backend, asked, answer, rest);
      assert [ask] + ([answer] + rest) == [ask, answer] + rest;
      ConversationCounts(backend, Act(backend, asked, answer), k - 1, state, outcome, now);
    }
  }

  lemma NothingCounts(backend: Backend, row: Row)
    ensures Changes(Trace(backend, row, [])) == 0 && Questions(Trace(backend, row, [])) == 0
  {
  }

  /** One status write in front of a run. */
  lemma CountMove(backend: Backend, row: Row, site: Site, now: int, rest: seq<RowAction>) returns (next: Row)
    requires UpdateOf(site).status.Some? && UpdateOf(site).expected == Some({row.call.status})
    requires UpdateOf(site).status.value != row.call.status && !UpdateOf(site).status.value.InputRequired?
    ensures next.call.status == UpdateOf(site).status.value
    ensures var t, u := Trace(backend, row, [Write(site, now)] + rest), Trace(backend, next, rest);
            Changes(t) == 1 + Changes(u) && Questions(t) == Questions(u)
  {
    WriteMoves(backend, row, site, now);
    CountFirst(backend, row, Write(site, now), rest);
    next := Act(backend, row, Write(site, now));
  }

  lemma AnsweredCounts(backend: Backend, row: Row, k: nat, state: CallState, outcome: Outcome, now: int)
    requires row.call.status.Ringing?
    ensures var t := Trace(backend, row, Answered(k, state, outcome, now));
            Changes(t) == 4 + 2 * k && Questions(t) == k
  {
    hide Trace, Changes, Questions, Act, UpdateRow, Conversation;
    var talk := Conversation(k, state, outcome, now);
    var c := CountMove(backend, row, Connect, now, [Write(Activate(state), now)] + talk);
    var d := CountMove(backend, c, Activate(state), now, talk);
    ConversationCounts(backend, d, k, state, outcome, now);
  }

  lemma ConnectingCounts(backend: Backend, row: Row, k: nat, state: CallState, outcome: Outcome, now: int)
    requires row.call.status.Prewarming?
    ensures var t := Trace(backend, row, Connecting(k, state, outcome, now));
            Changes(t) == 6 + 2 * k && Questions(t) == k
  {
    hide Trace, Changes, Questions, Act, UpdateRow, Answered;
    var answered := Answered(k, state, outcome, now);
    var a := CountMove(backend, row, Dial(state), now, [Write(Ring, now)] + answered);
    var b := CountMove(backend, a, Ring, now, answered);
    AnsweredCounts(backend, b, k, state, outcome, now);
  }

  /** No smaller bound would do: for every k a call that is asked k times, all of whose writes
      succeed, changes its status exactly 9 + 2k times. */
  lemma NinePlusTwoKIsAttained(backend: Backend, row: Row, k: nat, state: CallState, outcome: Outcome, now: int)
    requires row.call.status.Created?
    ensures var run := FullCall(k, state, outcome, now);
            var t := Trace(backend, row, run);
            (forall a <- run :: ActionOk(a)) && Changes(t) == 9 + 2 * k && Questions(t) == k
  {
    ConversationOk(k, state, outcome, now);
    hide Trace, Changes, Questions, Act, UpdateRow, Conversation;
    var connecting := Connecting(k, state, outcome, now);
    assert forall x <- connecting :: ActionOk(x);
    hide Connecting;
    var prewarm := [Write(Prewarm, now)] + connecting;
    var queue := [Write(Move(Validating, Queued, None, "call.queued"), now)] + prewarm;
    var a := CountMove(backend, row, Move(Created, Validating, None, "call.validating"), now, queue);
    var b := CountMove(backend, a, Move(Validating, Queued, None, "call.queued"), now, prewarm);
    var c := CountMove(backend, b, Prewarm, now, connecting);
    ConnectingCounts(backend, c, k, state, outcome, now);
  }

  lemma {:induction false} ConversationOk(k: nat, state: CallState, outcome: Outcome, now: int)
    ensures forall a <- Conversation(k, state, outcome, now) :: ActionOk(a)
    decreases k
  {
    if k > 0 {
      ConversationOk(k - 1, state, outcome, now);
    }
  }
}

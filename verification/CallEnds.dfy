/** What the record of a call says about how far it got and how it ended. */
module CallEnds {
  import opened Base
  import opened Models
  import opened Rows
  import opened CallSites
  import opened Lifecycle

  /** Status by status, the writes that are accepted. A note always is, and the writes that name the
      status they have read are accepted in that status. */
  lemma AcceptedWhere(backend: Backend, row: Row, site: Site, now: int)
    ensures ApplySite(backend, row, site, now).Ok? <==>
            || site.Note?
            || ((site.Move? || site.Cancel? || site.WorkerFailed?) && site.read == row.call.status)
            || match row.call.status
               case Created => site.InboundConnect?
               case Queued => site.RecordDispatch? || site.DispatchFailed? || site.Prewarm?
               case Prewarming => site.Dial?
               case Dialing => site.Ring?
               case Ringing => site.Connect? || site.SipFailed?
               case Connected => site.Activate? || (site.Snapshot? && site.scope.ConnectedOnly?)
               case Active =>
                 site.AskInput? || (site.Snapshot? && !site.scope.ConnectedOnly?) || site.Commit?
                 || site.Complete? || site.CompleteOnHangup?
               case InputRequired =>
                 site.InputReceived? || site.InputTimeout?
                 || (site.Snapshot? && (site.scope.InCall? || site.scope.UntilCompletion?))
                 || site.Commit? || site.Complete? || site.CompleteOnHangup?
               case Completing => site.Finish? || (site.Snapshot? && site.scope.UntilCompletion?)
               case _ => false
  {
    UpdateEffect(backend, row, UpdateOf(site), now);
    hide UpdateRow;
  }

  /** A call ends CANCELLED by a cancellation only, COMPLETED by the last write of its worker only, and
      FAILED by a failure only, which is recorded; the end is dated, and the state stays. */
  lemma EndingWrite(backend: Backend, row: Row, site: Site, now: int)
    requires ApplySite(backend, row, site, now).Ok? && !site.Move?
    requires row.call.status !in {Completed, Failed, Cancelled}
    ensures var a, b := row.call, ApplySite(backend, row, site, now).value.call;
            && (b.status == Cancelled <==> site.Cancel?)
            && (b.status == Completed <==> site.Finish?)
            && (b.status == Failed <==> site.DispatchFailed? || site.SipFailed? || site.WorkerFailed?)
            && b.error == (if site.DispatchFailed? then Some(CallError("dispatch_failed", site.message, true))
                           else if site.SipFailed? || site.WorkerFailed? then Some(site.error) else a.error)
            && (site.Finish? ==> b.outcome == Some(site.outcome))
            && (b.status in {Completed, Failed, Cancelled} ==>
                  b.endedAt == Some(now) && b.phase == None && b.state == a.state)
            && b.updatedAt == now
  {
  }

  /** A call starts to complete by its tools, with the state and outcome they have gathered and in the
      closing phase, or when it is hung up, with an outcome alone. */
  lemma CompletingWrite(backend: Backend, row: Row, site: Site, now: int)
    requires ApplySite(backend, row, site, now).Ok? && !site.Move? && row.call.status != Completing
    ensures var a, b := row.call, ApplySite(backend, row, site, now).value.call;
            && (b.status == Completing <==> site.Complete? || site.CompleteOnHangup?)
            && (site.Complete? ==>
                  && b.state == site.state && b.outcome == Some(site.outcome) && b.phase == Some(Closing)
                  && b.error == a.error)
            && (site.CompleteOnHangup? ==>
                  b.state == a.state && b.outcome == Some(site.outcome) && b.phase == a.phase && b.error == a.error)
  {
  }

  // ---- Over every run ----

  /** `transition` as the service uses it: towards the queue, without a phase. */
  predicate TowardsQueue(a: RowAction) {
    a.Write? && a.site.Move? ==> a.site.target in {Validating, Queued} && a.site.phase.None?
  }

  predicate JustCreated(call: CallRecord) {
    call.status == Created && call.phase.None? && call.outcome.None? && call.error.None?
    && call.connectedAt.None? && call.endedAt.None?
  }

  /** A call has an end time exactly when it has ended, an error exactly when it has failed, an outcome
      once it is completing, a connection time while it is connected, and the phases opening, closing,
      none in this order. */
  ghost predicate Sound(call: CallRecord) {
    var s := call.status;
    && (call.endedAt.Some? <==> s in {Completed, Failed, Cancelled})
    && (call.error.Some? <==> s == Failed)
    && (s in {Completing, Completed} ==> call.outcome.Some?)
    && (s in {Created, Validating, Queued, Prewarming, Dialing, Ringing} ==> call.connectedAt.None?)
    && (s in {Connected, Active, InputRequired, Completing, Completed} ==> call.connectedAt.Some?)
    && match s
       case Connected => call.phase == Some(Opening)
       case Active => call.phase == Some(Opening)
       case InputRequired => call.phase == Some(Opening)
       case Completing => call.phase in {Some(Opening), Some(Closing)}
       case _ => call.phase == None
  }

  lemma NotesKeepSound(backend: Backend, row: Row, a: RowAction)
    requires Sound(row.call) && (a.Speak? || UpdateOf(a.site).status.None?)
    ensures Sound(Act(backend, row, a).call)
  {
  }

  lemma WriteKeepsSound(backend: Backend, row: Row, site: Site, now: int)
    requires Guarded(site) && TowardsQueue(Write(site, now)) && Sound(row.call) && UpdateOf(site).status.Some?
    requires ApplySite(backend, row, site, now).Ok?
    ensures Sound(ApplySite(backend, row, site, now).value.call)
  {
    EveryWriteIsAnEdge(backend, row, site, now);
  }

  lemma ActKeepsSound(backend: Backend, row: Row, a: RowAction)
    requires ActionOk(a) && TowardsQueue(a) && Sound(row.call)
    ensures Sound(Act(backend, row, a).call)
  {
    hide Sound, ApplySite, AppendTurn, UpdateOf;
    if a.Speak? || UpdateOf(a.site).status.None? {
      NotesKeepSound(backend, row, a);
    } else if ApplySite(backend, row, a.site, a.now).Ok? {
      WriteKeepsSound(backend, row, a.site, a.now);
    }
  }

  /** In either repository and at every point of every run from a new call on. */
  lemma {:induction false} RecordIsSound(backend: Backend, row: Row, run: seq<RowAction>)
    requires JustCreated(row.call) && forall a <- run :: ActionOk(a) && TowardsQueue(a)
    ensures forall r <- Trace(backend, row, run) :: Sound(r.call)
  {
    SoundThroughout(backend, row, run);
  }

  lemma {:induction false} SoundThroughout(backend: Backend, row: Row, run: seq<RowAction>)
    requires Sound(row.call) && forall a <- run :: ActionOk(a) && TowardsQueue(a)
    ensures forall r <- Trace(backend, row, run) :: Sound(r.call)
    decreases |run|
  {
    hide Sound, ActionOk, TowardsQueue, Act;
    if run != [] {
      assert ActionOk(run[0]) && TowardsQueue(run[0]);
      ActKeepsSound(backend, row, run[0]);
      SoundThroughout(backend, Act(backend, row, run[0]), run[1..]);
    }
  }
}

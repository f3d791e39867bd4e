/** CommitSafety over every run: the durable list only grows, the hot list is a prefix of it at most
    one shorter, and answers rest on durable commitments that the policy would grant again. */
module CommitRuns {
  import opened Base
  import opened Models
  import opened Rows
  import opened CallSites
  import opened WriteBehind
  import opened QueueStates
  import opened CommitSafety
  import P = Policy

  // ---- Direct writes ----

  /** The state and the status after a direct write that was accepted. */
  lemma DirectEffect(backend: Backend, row: Row, site: Site, now: int)
    ensures var u := UpdateOf(site);
            var r := ApplySite(backend, row, site, now);
            && (r.Ok? <==> Accepts(row.call, u))
            && (r.Ok? ==> r.value.call.state == u.state.GetOr(row.call.state)
                          && r.value.call.status == u.status.GetOr(row.call.status)
                          && r.value.call.outcome == Override(u.outcome, row.call.outcome))
  {
    hide UpdateOf, UpdateRow;
    UpdateEffect(backend, row, UpdateOf(site), now);
  }

  /** A service write or a question leaves the commitments and does not lead back before ACTIVE. */
  lemma OutsideEffect(backend: Backend, row: Row, site: Site, now: int)
    requires OutsideSite(site, row.call.state)
             || (site.AskInput? && site.state == row.call.state.(pendingInput := site.state.pendingInput))
             || site.CompleteOnHangup? || site.Finish?
    ensures var after := Direct(backend, row, site, now).call;
            && after.state.commitments == row.call.state.commitments
            && after.state.facts == row.call.state.facts
            && after.state.candidates == row.call.state.candidates
            && after.state.lastRemote == row.call.state.lastRemote
            && (PreActive(after.status) ==> PreActive(row.call.status))
            && (after.status.Completing? ==> row.call.status.Completing? || site.CompleteOnHangup?)
  {
    DirectEffect(backend, row, site, now);
    hide ApplySite;
  }

  /** The worker's status writes happen before ACTIVE and store the hot state or nothing. */
  lemma WorkerEffect(backend: Backend, row: Row, site: Site, hot: CallState, now: int)
    requires WorkerSite(site, hot) && ApplySite(backend, row, site, now).Ok?
    ensures var after := ApplySite(backend, row, site, now).value.call;
            && (after.state == row.call.state || after.state == hot)
            && PreActive(row.call.status)
            && after.outcome == row.call.outcome
            && !after.status.Completing? && !after.status.Completed?
  {
    DirectEffect(backend, row, site, now);
    hide ApplySite;
  }

  // ---- Every action keeps Safe and only appends to the stored list ----

  ghost predicate SafeStep(s: System, t: System) {
    Safe(ViewOf(t)) && s.row.call.state.commitments <= t.row.call.state.commitments
  }

  lemma SnapshotToolSafe(s: System, hot: CallState, site: Site, holder: Holder, waiting: bool, t: System)
    requires Safe(ViewOf(s)) && hot.commitments == s.ctx.hot.commitments
    requires site.Snapshot? || site.Complete?
    requires site.state.commitments == hot.commitments
    requires !s.ctx.holder.Committing?
    requires holder == s.ctx.holder || (s.ctx.holder.Nobody? && waiting && !holder.Committing?
                                        && Awaits(holder) && holder.future == |s.ctx.futures|)
    requires var item := Item(Store(site), true, if waiting then Some(|s.ctx.futures|) else None);
             ViewOf(t) == Pushed(ViewOf(s), item, holder)
    ensures Safe(ViewOf(t))
  {
    hide Safe;
    var item := Item(Store(site), true, if waiting then Some(|s.ctx.futures|) else None);
    PushKeepsSafe(ViewOf(s), item, holder);
  }

  lemma LockedToolSafe(backend: Backend, s: System, a: Action)
    requires Safe(ViewOf(s)) && Enabled(s, a)
    requires a.DoRecordFact? || a.DoPropose? || a.DoSave? || a.DoFinishCall? || a.DoFinishUnlocked?
    ensures SafeStep(s, Next(backend, s, a))
  {
    hide Safe, P.Decide;
    var t := Next(backend, s, a);
    if s.ctx.closed || t.log.accepted == s.log.accepted {
      assert ViewOf(t) == ViewOf(s);
    } else {
      var item := t.log.accepted[|s.log.accepted|];
      SnapshotToolSafe(s, t.ctx.hot, item.op.site, t.ctx.holder, item.waiter.Some?, t);
    }
  }

  lemma AuthorizeSafe(backend: Backend, s: System, action: string, payload: Fields)
    requires Safe(ViewOf(s)) && s.ctx.holder.Nobody?
    ensures SafeStep(s, Authorize(s, action, payload))
  {
    hide Safe, P.Decide;
    var t := Authorize(s, action, payload);
    if t.log.accepted == s.log.accepted {
      assert ViewOf(t) == ViewOf(s);
    } else {
      var site := t.log.accepted[|s.log.accepted|].op.site;
      PushCommitKeepsSafe(ViewOf(s), site.state, site.commitment);
    }
  }

  lemma PlainPushSafe(backend: Backend, s: System, a: Action)
    requires Safe(ViewOf(s)) && Enabled(s, a)
    requires a.DoBeginAsk? || a.DoBeginClose? || a.DoHear? || a.DoNote?
    ensures SafeStep(s, Next(backend, s, a))
  {
    hide Safe;
    var t := Next(backend, s, a);
    if t.log.accepted == s.log.accepted {
      assert ViewOf(t) == ViewOf(s);
    } else {
      PushKeepsSafe(ViewOf(s), t.log.accepted[|s.log.accepted|], t.ctx.holder);
    }
  }

  lemma DirectSafe(backend: Backend, s: System, a: Action)
    requires Safe(ViewOf(s)) && Enabled(s, a)
    requires a.DoAsk? || a.DoWorker? || a.DoOutside? || a.DoWriteCompleting? || a.DoWriteCompleted?
    ensures SafeStep(s, Next(backend, s, a))
  {
    hide Safe, UpdateOf, ApplySite;
    var t := Next(backend, s, a);
    if a.DoWorker? {
      if ApplySite(backend, s.row, a.site, a.now).Ok? {
        WorkerEffect(backend, s.row, a.site, s.ctx.hot, a.now);
        StoredWhenPreActive(s);
      }
      DirectKeepsSafe(ViewOf(s), t.row.call.state.commitments, t.row.call.status);
    } else {
      var site :=
        match a
        case DoAsk(request, _) => AskInput(s.row.call.state.(pendingInput := Some(request)))
        case DoOutside(site, _) => site
        case DoWriteCompleting(_) => CompleteOnHangup(s.ending.outcome)
        case DoWriteCompleted(summary, _) =>
          Finish(s.ending.outcome.(summary := summary.GetOr(s.ending.outcome.summary)));
      OutsideEffect(backend, s.row, site, a.now);
      assert t.row == Direct(backend, s.row, site, a.now);
      DirectKeepsSafe(ViewOf(s), t.row.call.state.commitments, t.row.call.status);
      var v := ViewOf(s).(stored := t.row.call.state.commitments, status := t.row.call.status);
      if a.DoAsk? && s.ctx.holder.Asking? {
        ReleaseKeepsSafe(v);
      }
    }
  }

  lemma StoredWhenPreActive(s: System)
    requires Safe(ViewOf(s)) && PreActive(s.row.call.status)
    ensures s.row.call.state.commitments == s.ctx.hot.commitments
  {
  }

  lemma ResumeSafe(s: System)
    requires Safe(ViewOf(s)) && Resumable(s.ctx)
    ensures SafeStep(s, Resume(s))
  {
    hide Safe;
    ResumeKeepsSafe(ViewOf(s), Resume(s).ctx.holder);
  }

  lemma NextKeepsSafe(backend: Backend, s: System, a: Action)
    requires Safe(ViewOf(s)) && Enabled(s, a)
    ensures SafeStep(s, Next(backend, s, a))
  {
    hide Safe;
    var t := Next(backend, s, a);
    if a.DoRecordFact? || a.DoPropose? || a.DoSave? || a.DoFinishCall? || a.DoFinishUnlocked? {
      LockedToolSafe(backend, s, a);
    } else if a.DoAuthorize? {
      AuthorizeSafe(backend, s, a.action, a.payload);
    } else if a.DoBeginAsk? || a.DoBeginClose? || a.DoHear? || a.DoNote? {
      PlainPushSafe(backend, s, a);
    } else if a.DoAsk? || a.DoWorker? || a.DoOutside? || a.DoWriteCompleting? || a.DoWriteCompleted? {
      DirectSafe(backend, s, a);
    } else if a.DoResume? {
      ResumeSafe(s);
    } else if a.DoFinishClose? {
      PushStopKeepsSafe(ViewOf(s));
    } else if a.DoWriter? {
      WriterKeepsSafe(backend, s, a.fate, a.now);
    } else {
      assert ViewOf(t) == ViewOf(s);
    }
  }

  lemma {:induction false} RunKeepsSafe(backend: Backend, s: System, run: seq<Action>)
    requires Safe(ViewOf(s)) && Valid(backend, s, run)
    ensures SafeStep(s, After(backend, s, run))
    decreases |run|
  {
    if run != [] {
      NextKeepsSafe(backend, s, run[0]);
      RunKeepsSafe(backend, Next(backend, s, run[0]), run[1..]);
    }
  }

  /** Over every run, whatever writes fail, are lost or take effect and still raise: the durable
      commitments only ever grow by appending (between any two points of the run), and the hot list
      is a prefix of the durable one, at most one commitment shorter. */
  lemma CommitmentsNeverLost(backend: Backend, s: System, before: seq<Action>, after: seq<Action>)
    requires Initial(s) && Valid(backend, s, before)
    requires Valid(backend, After(backend, s, before), after)
    ensures var m := After(backend, s, before);
            var t := After(backend, m, after);
            && m.row.call.state.commitments <= t.row.call.state.commitments
            && t.ctx.hot.commitments <= t.row.call.state.commitments
            && |t.row.call.state.commitments| <= |t.ctx.hot.commitments| + 1
  {
    RunKeepsSafe(backend, s, before);
    RunKeepsSafe(backend, After(backend, s, before), after);
  }

  // ---- Replays are sound ----

  /** What the policy says now is what the commitment records. */
  predicate Faithful(c: Commitment, permissions: Permissions, constraints: seq<Constraint>) {
    var verdict := P.Decide(permissions, constraints, c.action, c.payload);
    !verdict.Raises? && c == NewCommitment(c.action, c.payload, verdict)
  }

  ghost predicate Distinct(cs: seq<Commitment>) {
    forall i, j :: 0 <= i < j < |cs| ==> cs[i].id != cs[j].id
  }

  ghost predicate Sound(cs: seq<Commitment>, permissions: Permissions, constraints: seq<Constraint>) {
    Distinct(cs) && forall c <- cs :: Faithful(c, permissions, constraints)
  }

  /** The stored list is sound, and so is the hot list with the commitment being decided; every
      answer rests on a hot commitment. */
  ghost predicate Honest(s: System) {
    var p, k := s.ctx.hot.permissions, s.ctx.hot.constraints;
    && Sound(s.row.call.state.commitments, p, k)
    && (s.ctx.holder.Committing? && !s.ctx.failed ==> Sound(s.ctx.hot.commitments + [s.ctx.holder.commitment], p, k))
    && (forall a <- s.log.answers :: exists c <- s.ctx.hot.commitments :: c.id == a.id && c.allowed == a.allowed)
  }

  lemma SoundPrefix(cs: seq<Commitment>, longer: seq<Commitment>, p: Permissions, k: seq<Constraint>)
    requires Sound(longer, p, k) && cs <= longer
    ensures Sound(cs, p, k)
  {
    forall c <- cs ensures Faithful(c, p, k) {
      assert c in longer;
    }
  }

  /** What the writer can turn the stored list into. */
  lemma WriterStored(backend: Backend, s: System, fate: Fate, now: int)
    requires Safe(ViewOf(s)) && s.ctx.queue != [] && !s.ctx.stopped
    ensures var stored := WriterStep(backend, s, fate, now).row.call.state.commitments;
            || stored == s.row.call.state.commitments
            || stored == s.ctx.hot.commitments
            || (s.ctx.holder.Committing? && !s.ctx.failed
                && stored == s.ctx.hot.commitments + [s.ctx.holder.commitment])
  {
    var e := s.ctx.queue[0];
    assert e in s.ctx.queue;
    if e.Work? {
      hide WriterStep;
      WriterRow(backend, s, fate, now);
    }
  }

  /** The permissions and constraints of a call are fixed when its worker takes over. */
  ghost predicate SameRules(s: System, t: System) {
    t.ctx.hot.permissions == s.ctx.hot.permissions && t.ctx.hot.constraints == s.ctx.hot.constraints
  }

  lemma HotIsPrefix(s: System)
    requires Safe(ViewOf(s))
    ensures s.ctx.hot.commitments <= s.row.call.state.commitments
    ensures Landed(ViewOf(s)) ==> s.row.call.state.commitments == s.ctx.hot.commitments + [s.ctx.holder.commitment]
  {
  }

  lemma AuthorizeHonest(s: System, action: string, payload: Fields)
    requires Safe(ViewOf(s)) && Honest(s) && s.ctx.holder.Nobody?
    ensures Honest(Authorize(s, action, payload)) && SameRules(s, Authorize(s, action, payload))
  {
    hide Safe;
    var p, k := s.ctx.hot.permissions, s.ctx.hot.constraints;
    HotIsPrefix(s);
    SoundPrefix(s.ctx.hot.commitments, s.row.call.state.commitments, p, k);
    var t := Authorize(s, action, payload);
    hide P.Decide;
    if t.ctx.holder.Committing? {
      var c := t.ctx.holder.commitment;
      forall x | x in s.ctx.hot.commitments + [c] ensures Faithful(x, p, k) {
      }
    }
  }

  /** Stored and hot lists change only in sound ways; answers rest on hot commitments. */
  lemma HonestStep(s: System, t: System)
    requires Safe(ViewOf(s)) && Honest(s) && SameRules(s, t)
    requires var stored := t.row.call.state.commitments;
             || stored == s.row.call.state.commitments
             || stored == s.ctx.hot.commitments
             || (s.ctx.holder.Committing? && !s.ctx.failed
                 && stored == s.ctx.hot.commitments + [s.ctx.holder.commitment])
    requires t.ctx.hot.commitments == s.ctx.hot.commitments && t.log.answers == s.log.answers
    requires t.ctx.holder.Committing? ==> t.ctx.holder == s.ctx.holder
    requires s.ctx.failed ==> t.ctx.failed
    ensures Honest(t)
  {
    hide Safe, Faithful;
    HotIsPrefix(s);
    SoundPrefix(s.ctx.hot.commitments, s.row.call.state.commitments, s.ctx.hot.permissions, s.ctx.hot.constraints);
  }

  lemma ResumeHonest(s: System)
    requires Safe(ViewOf(s)) && Honest(s) && Resumable(s.ctx)
    ensures Honest(Resume(s)) && SameRules(s, Resume(s))
  {
    hide Safe, Faithful;
    HotIsPrefix(s);
    var t := Resume(s);
    forall a <- t.log.answers
      ensures exists c <- t.ctx.hot.commitments :: c.id == a.id && c.allowed == a.allowed
    {
      if Landed(ViewOf(s)) && a == t.log.answers[|t.log.answers| - 1] {
        var c := s.ctx.holder.commitment;
        assert t.ctx.hot.commitments[|s.ctx.hot.commitments|] == c;
        assert c in t.ctx.hot.commitments;
      } else {
        var c :| c in s.ctx.hot.commitments && c.id == a.id && c.allowed == a.allowed;
        assert c in t.ctx.hot.commitments;
      }
    }
  }

  lemma DirectHonest(backend: Backend, s: System, a: Action)
    requires Safe(ViewOf(s)) && Honest(s) && Enabled(s, a)
    requires a.DoAsk? || a.DoWorker? || a.DoOutside? || a.DoWriteCompleting? || a.DoWriteCompleted?
    ensures Honest(Next(backend, s, a)) && SameRules(s, Next(backend, s, a))
  {
    hide Safe, Honest, UpdateOf, ApplySite;
    if a.DoWorker? {
      if ApplySite(backend, s.row, a.site, a.now).Ok? {
        WorkerEffect(backend, s.row, a.site, s.ctx.hot, a.now);
      }
    } else {
      var site :=
        match a
        case DoAsk(request, _) => AskInput(s.row.call.state.(pendingInput := Some(request)))
        case DoOutside(site, _) => site
        case DoWriteCompleting(_) => CompleteOnHangup(s.ending.outcome)
        case DoWriteCompleted(summary, _) =>
          Finish(s.ending.outcome.(summary := summary.GetOr(s.ending.outcome.summary)));
      OutsideEffect(backend, s.row, site, a.now);
    }
    HonestStep(s, Next(backend, s, a));
  }

  lemma NextKeepsHonest(backend: Backend, s: System, a: Action)
    requires Safe(ViewOf(s)) && Honest(s) && Enabled(s, a)
    ensures Honest(Next(backend, s, a)) && SameRules(s, Next(backend, s, a))
  {
    hide Safe, Honest, P.Decide, UpdateOf, ApplySite, WriterStep;
    if a.DoAuthorize? {
      AuthorizeHonest(s, a.action, a.payload);
    } else if a.DoResume? {
      ResumeHonest(s);
    } else if a.DoAsk? || a.DoWorker? || a.DoOutside? || a.DoWriteCompleting? || a.DoWriteCompleted? {
      DirectHonest(backend, s, a);
    } else {
      OtherHonest(backend, s, a);
    }
  }

  lemma WriterHonest(backend: Backend, s: System, fate: Fate, now: int)
    requires Safe(ViewOf(s)) && Honest(s) && s.ctx.queue != [] && !s.ctx.stopped
    ensures Honest(WriterStep(backend, s, fate, now)) && SameRules(s, WriterStep(backend, s, fate, now))
  {
    hide Safe, Honest, Perform, Settle;
    WriterStored(backend, s, fate, now);
    HonestStep(s, WriterStep(backend, s, fate, now));
  }

  /** Actions that leave the stored row, the hot commitments and the answers. */
  lemma OtherHonest(backend: Backend, s: System, a: Action)
    requires Safe(ViewOf(s)) && Honest(s) && Enabled(s, a)
    requires !a.DoAuthorize? && !a.DoResume? && !a.DoAsk? && !a.DoWorker? && !a.DoOutside?
    requires !a.DoWriteCompleting? && !a.DoWriteCompleted?
    ensures Honest(Next(backend, s, a)) && SameRules(s, Next(backend, s, a))
  {
    hide Safe, Honest, P.Decide, UpdateOf, ApplySite;
    if a.DoWriter? {
      WriterHonest(backend, s, a.fate, a.now);
    } else if a.DoRecordFact? || a.DoPropose? || a.DoSave? || a.DoFinishCall? || a.DoFinishUnlocked? || a.DoHear? {
      ToolHonest(backend, s, a);
    } else {
      hide WriterStep;
      HonestStep(s, Next(backend, s, a));
    }
  }

  lemma ToolHonest(backend: Backend, s: System, a: Action)
    requires Safe(ViewOf(s)) && Honest(s) && Enabled(s, a)
    requires a.DoRecordFact? || a.DoPropose? || a.DoSave? || a.DoFinishCall? || a.DoFinishUnlocked? || a.DoHear?
    ensures Honest(Next(backend, s, a)) && SameRules(s, Next(backend, s, a))
  {
    hide Safe, Honest, P.Decide;
    HonestStep(s, Next(backend, s, a));
  }

  lemma {:induction false} RunKeepsHonest(backend: Backend, s: System, run: seq<Action>)
    requires Safe(ViewOf(s)) && Honest(s) && Valid(backend, s, run)
    ensures var t := After(backend, s, run); Safe(ViewOf(t)) && Honest(t) && SameRules(s, t)
    decreases |run|
  {
    if run != [] {
      NextKeepsSafe(backend, s, run[0]);
      NextKeepsHonest(backend, s, run[0]);
      RunKeepsHonest(backend, Next(backend, s, run[0]), run[1..]);
    }
  }

  /** authorize_commit answers only for commitments that are durable, and they stay durable. */
  lemma AnswersAreDurable(backend: Backend, s: System, before: seq<Action>, after: seq<Action>)
    requires Initial(s) && Valid(backend, s, before)
    requires Valid(backend, After(backend, s, before), after)
    ensures var m := After(backend, s, before);
            var t := After(backend, m, after);
            forall a <- m.log.answers ::
              exists c <- t.row.call.state.commitments :: c.id == a.id && c.allowed == a.allowed
  {
    RunKeepsHonest(backend, s, before);
    var m := After(backend, s, before);
    var t := After(backend, m, after);
    hide After, Valid, Safe, Sound, Initial;
    RunKeepsSafe(backend, m, after);
    HotIsPrefix(m);
    forall a <- m.log.answers
      ensures exists c <- t.row.call.state.commitments :: c.id == a.id && c.allowed == a.allowed
    {
      var c :| c in m.ctx.hot.commitments && c.id == a.id && c.allowed == a.allowed;
      assert c in t.row.call.state.commitments;
    }
  }

  /** Commit replay is sound: at most one commitment is stored for an action and a payload, and the
      stored verdict, hence every replayed answer, is what the policy decides now. */
  lemma ReplayIsSound(backend: Backend, s: System, run: seq<Action>, c: Commitment, d: Commitment)
    requires Initial(s) && Valid(backend, s, run)
    requires c in After(backend, s, run).row.call.state.commitments
    requires d in After(backend, s, run).row.call.state.commitments
    ensures var hot := After(backend, s, run).ctx.hot;
            var verdict := P.Decide(hot.permissions, hot.constraints, c.action, c.payload);
            && !verdict.Raises? && c.allowed == verdict.Allowed? && c.confirmed == verdict.Allowed?
            && c.reason == (if verdict.Denied? then Some(verdict.reason) else None)
            && (c.action == d.action && c.payload == d.payload ==> c == d)
  {
    RunKeepsHonest(backend, s, run);
    var t := After(backend, s, run);
    var cs := t.row.call.state.commitments;
    var i :| 0 <= i < |cs| && cs[i] == c;
    var j :| 0 <= j < |cs| && cs[j] == d;
    assert Faithful(c, t.ctx.hot.permissions, t.ctx.hot.constraints);
    assert Faithful(d, t.ctx.hot.permissions, t.ctx.hot.constraints);
    assert i < j ==> cs[i].id != cs[j].id;
    assert j < i ==> cs[j].id != cs[i].id;
  }
}
